/**
The downstream identity: its file format, how one is drawn, and how any number of processes come to share
one. Every file operation is a step of its own; each may fail, and a process may crash between any two.
 */
module Identity {
  import opened Wrappers
  import opened Text
  import opened Keys
  import opened Params

  datatype Identity = Identity(privateKey: Key, s1: nat, s2: nat, s3: nat, s4: nat, h1: Range, h2: Range, h3: Range,
                               h4: Range)

  predicate GoodIdentity(id: Identity) {
    && id.s1 < LIMIT16 && id.s2 < LIMIT16 && id.s3 < LIMIT16 && id.s4 < LIMIT16
    && GoodRange(id.h1) && GoodRange(id.h2) && GoodRange(id.h3) && GoodRange(id.h4)
  }

  /** The fields of the JSON file. */
  datatype Record = Record(privateKey: string, s1: nat, s2: nat, s3: nat, s4: nat, h1: string, h2: string, h3: string,
                           h4: string)

  function Save(id: Identity): Record {
    Record(PrintKey(id.privateKey), id.s1, id.s2, id.s3, id.s4,
           PrintRange(id.h1), PrintRange(id.h2), PrintRange(id.h3), PrintRange(id.h4))
  }

  function Load(r: Record): Option<Identity> {
    var key := ParseKey(r.privateKey);
    var h1, h2, h3, h4 := ParseRange(r.h1), ParseRange(r.h2), ParseRange(r.h3), ParseRange(r.h4);
    if key == None || h1 == None || h2 == None || h3 == None || h4 == None then None
    else Some(Identity(key.value, r.s1, r.s2, r.s3, r.s4, h1.value, h2.value, h3.value, h4.value))
  }

  /** Each field is read on its own, and one that cannot be read is an error. */
  lemma LoadReadsEachField(r: Record, id: Identity)
    ensures Load(r) == Some(id) <==>
            && ParseKey(r.privateKey) == Some(id.privateKey)
            && r.s1 == id.s1 && r.s2 == id.s2 && r.s3 == id.s3 && r.s4 == id.s4
            && ParseRange(r.h1) == Some(id.h1) && ParseRange(r.h2) == Some(id.h2)
            && ParseRange(r.h3) == Some(id.h3) && ParseRange(r.h4) == Some(id.h4)
  {
    hide ParseKey, ParseRange;
  }

  /** Loading inverts saving. */
  lemma LoadSave(id: Identity)
    requires GoodIdentity(id)
    ensures Load(Save(id)) == Some(id)
  {
    hide PrintKey, PrintRange, ParseKey, ParseRange, Trimmed, Without;
    ParsePrintKey(id.privateKey);
    RangeBack(id.h1);
    RangeBack(id.h2);
    RangeBack(id.h3);
    RangeBack(id.h4);
  }

  // ---------------------------------------------------------------- Drawing one

  /** What the random source hands out: a clamped key, and numbers from the documented ranges. */
  datatype Draw = Draw(key: Key, s1: nat, s2: nat, s3: nat, s4: nat, base: nat)

  predicate InBounds(d: Draw) {
    && 15 <= d.s1 <= 100 && 15 <= d.s2 <= 100 && 10 <= d.s3 <= 60 && 8 <= d.s4 <= 16 &&
      0x1_0000 <= d.base <= 0x4000_0000
  }

  predicate Disjoint(a: Range, b: Range) { a.hi < b.lo || b.hi < a.lo }

  /** The four header ranges are 4096 wide, do not overlap, do not wrap around, and stay clear of the
      message types of WireGuard, 1 to 4. */
  method NewIdentity(d: Draw) returns (id: Identity)
    requires InBounds(d)
    ensures GoodIdentity(id) && id.privateKey == d.key && id.s1 == d.s1 && id.s2 == d.s2 && id.s3 == d.s3 &&
            id.s4 == d.s4
    ensures Disjoint(id.h1, id.h2) && Disjoint(id.h1, id.h3) && Disjoint(id.h1, id.h4)
    ensures Disjoint(id.h2, id.h3) && Disjoint(id.h2, id.h4) && Disjoint(id.h3, id.h4)
    ensures forall h :: h in {id.h1, id.h2, id.h3, id.h4} ==> h.hi - h.lo == 4095 && h.lo > 4
    ensures id.h1.lo == d.base && id.h2.lo - id.h1.lo == 0x10_0000
    ensures id.h3.lo - id.h2.lo == 0x10_0000 && id.h4.lo - id.h3.lo == 0x10_0000
  {
    var hs := new Range[4](_ => ZERO);
    for i := 0 to 4
      invariant forall j :: 0 <= j < i ==> hs[j] == Range(d.base + j * 0x10_0000, d.base + j * 0x10_0000 + 4095)
    {
      var lo := (d.base + i * 0x10_0000) % LIMIT32; // 32 bits
      hs[i] := Range(lo, (lo + 4095) % LIMIT32);
    }
    id := Identity(d.key, d.s1, d.s2, d.s3, d.s4, hs[0], hs[1], hs[2], hs[3]);
  }

  // ---------------------------------------------------------------- Publishing one

  /** A file is written in full or only in part. */
  datatype File = Partial | Whole(record: Record)

  /** What reading a file gives. */
  function Read(f: File): Option<Identity> { if f.Whole? then Load(f.record) else None }

  /** Where a caller stands. The identity it has drawn stays with it. */
  datatype Caller =
    | Reading                  // about to read the published file
    | Drawing                  // there was none
    | MakingDir(id: Identity)
    | MakingTemp(id: Identity)
    | Writing(id: Identity)
    | Syncing(id: Identity)
    | Closing(id: Identity)
    | Linking(id: Identity)
    | Rereading                // the link was refused because the file exists
    | Returned(id: Identity)
    | Failed
    | Crashed

  /** `temps` holds the temporary file of each caller that has one. */
  datatype State = State(file: Option<File>, temps: map<nat, File>, callers: seq<Caller>)

  /** The callers but one are where they were. */
  ghost predicate Moves(s: State, s': State, p: nat) {
    p < |s.callers| == |s'.callers| && forall q :: 0 <= q < |s.callers| && q != p ==> s'.callers[q] == s.callers[q]
  }

  /** Removing the temporary file, which is deferred to the return and may fail. */
  ghost predicate MayRemove(s: State, s': State, p: nat) { s'.temps == s.temps || s'.temps == s.temps - {p} }

  /** One operation of caller `p`. */
  ghost predicate Next(s: State, s': State, p: nat)
    requires p < |s.callers| == |s'.callers|
  {
    var c, c' := s.callers[p], s'.callers[p];
    match c
    case Reading =>
      && s'.file == s.file && s'.temps == s.temps
      && (|| c' == Failed
          || (s.file == None && c' == Drawing)
          || (s.file.Some? && Read(s.file.value).Some? && c' == Returned(Read(s.file.value).value)))
    case Drawing =>
      s'.file == s.file && s'.temps == s.temps && (c' == Failed || (c'.MakingDir? && GoodIdentity(c'.id)))
    case MakingDir(id) => s'.file == s.file && s'.temps == s.temps && (c' == Failed || c' == MakingTemp(id))
    case MakingTemp(id) =>
      s'.file == s.file && ((c' == Failed && s'.temps == s.temps) ||
                            (c' == Writing(id) && s'.temps == s.temps[p := Partial]))
    case Writing(id) =>
      s'.file == s.file && ((c' == Failed && MayRemove(s, s', p)) ||
                            (c' == Syncing(id) && s'.temps == s.temps[p := Whole(Save(id))]))
    case Syncing(id) => s'.file == s.file && ((c' == Failed && MayRemove(s, s', p)) ||
                                              (c' == Closing(id) && s'.temps == s.temps))
    case Closing(id) => s'.file == s.file && ((c' == Failed && MayRemove(s, s', p)) ||
                                              (c' == Linking(id) && s'.temps == s.temps))
    case Linking(id) =>
      && MayRemove(s, s', p)
      && (|| (c' == Failed && s'.file == s.file)
          || (s.file.Some? && c' == Rereading && s'.file == s.file)
          || (s.file == None && p in s.temps && c' == Returned(id) && s'.file == Some(s.temps[p])))
    case Rereading =>
      && s'.file == s.file && s'.temps == s.temps
      && (c' == Failed || (s.file.Some? && Read(s.file.value).Some? && c' == Returned(Read(s.file.value).value)))
    case _ => s' == s
  }

  /** A step of the system: some caller does an operation, or crashes. */
  ghost predicate Step(s: State, s': State) {
    exists p: nat :: Moves(s, s', p) && (Next(s, s', p) ||
                                         (s'.callers[p] == Crashed && s'.file == s.file && s'.temps == s.temps))
  }

  ghost predicate Start(s: State) { s.temps == map[] && forall p :: 0 <= p < |s.callers| ==> s.callers[p] == Reading }

  ghost predicate Run(ss: seq<State>) {
    ss != [] && Start(ss[0]) && forall i :: 0 <= i < |ss| - 1 ==> Step(ss[i], ss[i + 1])
  }

  /** What a caller relies on. */
  ghost predicate Sound(s: State, p: nat)
    requires p < |s.callers|
  {
    match s.callers[p]
    case MakingDir(id) => GoodIdentity(id)
    case MakingTemp(id) => GoodIdentity(id)
    case Writing(id) => GoodIdentity(id)
    case Syncing(id) => GoodIdentity(id) && p in s.temps && s.temps[p] == Whole(Save(id))
    case Closing(id) => GoodIdentity(id) && p in s.temps && s.temps[p] == Whole(Save(id))
    case Linking(id) => GoodIdentity(id) && p in s.temps && s.temps[p] == Whole(Save(id))
    case Rereading => s.file.Some?
    case Returned(id) => s.file.Some? && Read(s.file.value) == Some(id)
    case _ => true
  }

  ghost predicate Inv(s: State) { forall p :: 0 <= p < |s.callers| ==> Sound(s, p) }

  /** The file never changes once it is there, and is there only complete unless it was there before. */
  ghost predicate Published(s: State, s': State) {
    if s.file.Some? then s'.file == s.file
    else s'.file == None || (s'.file.value.Whole? && Read(s'.file.value).Some?)
  }

  /** An operation touches the caller's own temporary file only, and the published one only if absent. */
  lemma NextFrame(s: State, s': State, p: nat, q: nat)
    requires Moves(s, s', p) && Next(s, s', p) && q != p
    ensures q in s.temps ==> q in s'.temps && s'.temps[q] == s.temps[q]
    ensures s.file.Some? ==> s'.file == s.file
  {
    hide Save, Read, GoodIdentity;
  }

  lemma SavedReads(id: Identity)
    requires GoodIdentity(id)
    ensures Read(Whole(Save(id))) == Some(id)
  {
    hide Load, Save;
    LoadSave(id);
  }

  lemma NextOwn(s: State, s': State, p: nat)
    requires Moves(s, s', p) && Next(s, s', p) && Sound(s, p)
    ensures Sound(s', p) && Published(s, s')
  {
    hide Read, Save, GoodIdentity, MayRemove;
    if s.callers[p].Linking? {
      SavedReads(s.callers[p].id);
    }
  }

  lemma NextKeeps(s: State, s': State, p: nat)
    requires Inv(s) && Moves(s, s', p) && Next(s, s', p)
    ensures Inv(s') && Published(s, s')
  {
    hide Next, Load, Save, GoodIdentity, Published;
    NextOwn(s, s', p);
    forall q | 0 <= q < |s'.callers| ensures Sound(s', q) {
      if q != p {
        NextFrame(s, s', p, q);
        assert Sound(s, q);
      }
    }
  }

  lemma StepKeeps(s: State, s': State)
    requires Inv(s) && Step(s, s')
    ensures Inv(s') && Published(s, s')
  {
    hide Next, Sound;
    var p: nat :| Moves(s, s', p) && (Next(s, s', p) ||
                                      (s'.callers[p] == Crashed && s'.file == s.file && s'.temps == s.temps));
    if Next(s, s', p) {
      NextKeeps(s, s', p);
    } else {
      CrashKeeps(s, s', p);
    }
  }

  lemma CrashKeeps(s: State, s': State, p: nat)
    requires Inv(s) && Moves(s, s', p) && s'.callers[p] == Crashed && s'.file == s.file && s'.temps == s.temps
    ensures Inv(s') && (s.file == None || s'.file == s.file)
  {
    hide Load, Save, GoodIdentity;
    forall q | 0 <= q < |s'.callers| ensures Sound(s', q) {
      assert Sound(s, q);
    }
  }

  lemma RunStep(ss: seq<State>, i: nat)
    requires Run(ss) && 0 < i < |ss|
    ensures Step(ss[i - 1], ss[i])
  {
    hide Step;
    assert 0 <= i - 1 < |ss| - 1;
  }

  lemma RunStart(ss: seq<State>)
    requires Run(ss)
    ensures Inv(ss[0])
  {
    hide Step, Load, Save;
  }

  lemma {:induction false} RunKeeps(ss: seq<State>, i: nat)
    requires Run(ss) && i < |ss|
    ensures Inv(ss[i])
    decreases i
  {
    hide *;
    if i > 0 {
      RunKeeps(ss, i - 1);
      RunStep(ss, i);
      StepKeeps(ss[i - 1], ss[i]);
    } else {
      RunStart(ss);
    }
  }

  /** Once there is a file it stays what it is, however the callers interleave, fail and crash. */
  lemma {:induction false} FileStays(ss: seq<State>, i: nat, j: nat)
    requires Run(ss) && i <= j < |ss| && ss[i].file.Some?
    ensures ss[j].file == ss[i].file
    decreases j
  {
    hide Run, Inv, Step, Load;
    if i < j {
      FileStays(ss, i, j - 1);
      RunKeeps(ss, j - 1);
      RunStep(ss, j);
      StepKeeps(ss[j - 1], ss[j]);
    }
  }

  /** If there was no file at first, it is at any time absent, or complete and can be loaded. */
  lemma {:induction false} AbsentOrComplete(ss: seq<State>, i: nat)
    requires Run(ss) && i < |ss| && ss[0].file == None
    ensures ss[i].file == None || (ss[i].file.value.Whole? && Read(ss[i].file.value).Some?)
    decreases i
  {
    hide Run, Inv, Step, Load;
    if i > 0 {
      AbsentOrComplete(ss, i - 1);
      RunKeeps(ss, i - 1);
      RunStep(ss, i);
      StepKeeps(ss[i - 1], ss[i]);
    }
  }

  /** All callers that succeed, at whatever times, return the same identity: the one in the file. */
  lemma Agreement(ss: seq<State>, i: nat, j: nat, p: nat, q: nat)
    requires Run(ss) && i <= j < |ss| && p < |ss[i].callers| && q < |ss[j].callers|
    requires ss[i].callers[p].Returned? && ss[j].callers[q].Returned?
    ensures ss[i].callers[p].id == ss[j].callers[q].id
    ensures ss[j].file.Some? && Read(ss[j].file.value) == Some(ss[j].callers[q].id)
  {
    hide *;
    ReturnedIsFile(ss, i, p);
    ReturnedIsFile(ss, j, q);
    FileStays(ss, i, j);
  }

  lemma ReturnedIsFile(ss: seq<State>, i: nat, p: nat)
    requires Run(ss) && i < |ss| && p < |ss[i].callers| && ss[i].callers[p].Returned?
    ensures ss[i].file.Some? && Read(ss[i].file.value) == Some(ss[i].callers[p].id)
  {
    hide Run, Load;
    RunKeeps(ss, i);
    assert Sound(ss[i], p);
  }

  // ---------------------------------------------------------------- Nobody is kept from finishing

  ghost predicate Alive(c: Caller) { !c.Returned? && !c.Failed? && !c.Crashed? }

  /** How many operations a caller has left at most. */
  ghost function Left(c: Caller): nat {
    match c
    case Reading => 9
    case Drawing => 8
    case MakingDir(_) => 7
    case MakingTemp(_) => 6
    case Writing(_) => 5
    case Syncing(_) => 4
    case Closing(_) => 3
    case Linking(_) => 2
    case Rereading => 1
    case _ => 0
  }

  /** The caller's next operation if it does not fail; `id` is what it draws if it has to. */
  ghost function Ahead(s: State, p: nat, id: Identity): State
    requires p < |s.callers| && Sound(s, p) && (s.file.Some? ==> Read(s.file.value).Some?)
  {
    match s.callers[p]
    case Reading =>
      s.(callers := s.callers[p := if s.file == None then Drawing else Returned(Read(s.file.value).value)])
    case Drawing => s.(callers := s.callers[p := MakingDir(id)])
    case MakingDir(mine) => s.(callers := s.callers[p := MakingTemp(mine)])
    case MakingTemp(mine) => s.(callers := s.callers[p := Writing(mine)], temps := s.temps[p := Partial])
    case Writing(mine) => s.(callers := s.callers[p := Syncing(mine)], temps := s.temps[p := Whole(Save(mine))])
    case Syncing(mine) => s.(callers := s.callers[p := Closing(mine)])
    case Closing(mine) => s.(callers := s.callers[p := Linking(mine)])
    case Linking(mine) =>
      if s.file == None then s.(callers := s.callers[p := Returned(mine)], file := Some(s.temps[p]))
      else s.(callers := s.callers[p := Rereading])
    case Rereading => s.(callers := s.callers[p := Returned(Read(s.file.value).value)])
    case _ => s
  }

  lemma AheadIsNext(s: State, p: nat, id: Identity)
    requires p < |s.callers| && Sound(s, p) && (s.file.Some? ==> Read(s.file.value).Some?) && GoodIdentity(id)
    requires Alive(s.callers[p])
    ensures var t := Ahead(s, p, id);
            && Moves(s, t, p) && Next(s, t, p) && Left(t.callers[p]) < Left(s.callers[p])
            && (t.callers[p].Returned? || Alive(t.callers[p]))
  {
    hide Read, Save, GoodIdentity;
  }

  /** Operations of one caller alone, one after the other. */
  ghost predicate Alone(ss: seq<State>, p: nat) {
    ss != [] && forall i :: 0 <= i < |ss| - 1 ==> Moves(ss[i], ss[i + 1], p) && Next(ss[i], ss[i + 1], p)
  }

  /** Wherever the others are, and whether they have crashed or failed, a caller that is still at it returns
      after at most nine operations of its own if none of these fails, unless a file that was there before
      cannot be loaded. */
  lemma {:induction false} CanFinish(s: State, p: nat, id: Identity) returns (ss: seq<State>)
    requires Inv(s) && p < |s.callers| && Alive(s.callers[p]) && GoodIdentity(id)
    requires s.file.Some? ==> Read(s.file.value).Some?
    ensures Alone(ss, p) && ss[0] == s && |ss| <= Left(s.callers[p]) + 1
    ensures p < |ss[|ss| - 1].callers| && ss[|ss| - 1].callers[p].Returned?
    decreases Left(s.callers[p])
  {
    hide Next, Sound, Read, GoodIdentity, Ahead;
    assert Sound(s, p);
    var t := Ahead(s, p, id);
    AheadIsNext(s, p, id);
    NextKeeps(s, t, p);
    if t.callers[p].Returned? {
      ss := [s, t];
    } else {
      var rest := CanFinish(t, p, id);
      ss := [s] + rest;
      AloneOn(s, rest, p);
    }
  }

  lemma AloneOn(s: State, ss: seq<State>, p: nat)
    requires Alone(ss, p) && Moves(s, ss[0], p) && Next(s, ss[0], p)
    ensures Alone([s] + ss, p)
  {
    hide Next;
    var all := [s] + ss;
    forall i | 0 <= i < |all| - 1 ensures Moves(all[i], all[i + 1], p) && Next(all[i], all[i + 1], p) {
      if i > 0 {
        assert all[i] == ss[i - 1] && all[i + 1] == ss[i];
      }
    }
  }
}
