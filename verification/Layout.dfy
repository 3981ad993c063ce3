/**
How a configuration file may be laid out: what a line says, told without the way it is taken apart, and
that nothing else about the layout matters.
 */
module Layout {
  import opened Wrappers
  import opened Text
  import opened Address
  import Decimal
  import Keys
  import Params
  import opened AwgConf
  import opened AwgConfText

  // ---------------------------------------------------------------- Trimming

  ghost predicate Blank(s: string) { forall c :: c in s ==> IsSpace(c) }

  lemma {:induction false} TrimLeftBlank(a: string, s: string)
    requires Blank(a)
    ensures TrimLeft(a + s) == TrimLeft(s)
  {
    hide IsSpace;
    if a == "" {
      assert a + s == s;
    } else {
      assert a[0] in a && (a + s)[1..] == a[1..] + s;
      TrimLeftBlank(a[1..], s);
    }
  }

  lemma {:induction false} TrimRightBlank(s: string, b: string)
    requires Blank(b)
    ensures TrimRight(s + b) == TrimRight(s)
    decreases |b|
  {
    hide IsSpace;
    if b == "" {
      assert s + b == s;
    } else {
      var front := b[..|b| - 1];
      assert b[|b| - 1] in b && (s + b)[..|s + b| - 1] == s + front;
      TrimRightBlank(s, front);
    }
  }

  lemma {:induction false} TrimLeftParts(s: string)
    ensures exists a :: Blank(a) && s == a + TrimLeft(s)
  {
    hide IsSpace;
    if s != "" && IsSpace(s[0]) {
      TrimLeftParts(s[1..]);
      var a :| Blank(a) && s[1..] == a + TrimLeft(s[1..]);
      assert Blank([s[0]] + a) && s == [s[0]] + s[1..];
      assert s == ([s[0]] + a) + TrimLeft(s);
    } else {
      assert Blank("") && s == "" + TrimLeft(s);
    }
  }

  lemma {:induction false} TrimRightParts(s: string)
    ensures exists b :: Blank(b) && s == TrimRight(s) + b
    decreases |s|
  {
    hide IsSpace;
    if s != "" && IsSpace(s[|s| - 1]) {
      var front, last := s[..|s| - 1], s[|s| - 1];
      TrimRightParts(front);
      var b :| Blank(b) && front == TrimRight(front) + b;
      assert Blank(b + [last]) && s == front + [last];
      assert s == TrimRight(s) + (b + [last]);
    } else {
      assert Blank("") && s == TrimRight(s) + "";
    }
  }

  /** The string between white space. */
  ghost predicate Within(s: string, t: string) {
    Trimmed(t) && exists a, b :: Blank(a) && Blank(b) && s == a + t + b
  }

  lemma TrimIsWithin(s: string, t: string)
    ensures Trim(s) == t <==> Within(s, t)
  {
    TrimIsTrimmed(s);
    TrimLeftParts(s);
    TrimRightParts(TrimLeft(s));
    var a :| Blank(a) && s == a + TrimLeft(s);
    var b :| Blank(b) && TrimLeft(s) == Trim(s) + b;
    assert s == a + Trim(s) + b;
    if Within(s, t) {
      var x, y :| Blank(x) && Blank(y) && s == x + t + y;
      Trims(x, t, y);
    }
  }

  lemma Trims(a: string, t: string, b: string)
    requires Blank(a) && Blank(b) && Trimmed(t)
    ensures Trim(a + t + b) == t
  {
    hide IsSpace;
    assert a + t + b == a + (t + b);
    TrimLeftBlank(a, t + b);
    if t == "" {
      assert t + b == b && "" + b == b;
      TrimLeftBlank(b, "");
      assert b + "" == b;
    } else {
      assert TrimLeft(t + b) == t + b;
      TrimRightBlank(t, b);
    }
  }

  // ---------------------------------------------------------------- Lines

  /** What a line says: what is in front of the first '#', without white space around it. */
  ghost predicate Says(line: string, l: string) {
    exists front, comment :: line == front + comment && '#' !in front && (comment == "" || comment[0] == '#') &&
                             Within(front, l)
  }

  lemma SaysOne(line: string)
    ensures Says(line, Uncommented(line))
  {
    var l := Trim(line);
    TrimIsWithin(line, l);
    var a, b :| Blank(a) && Blank(b) && line == a + l + b;
    BlankHasNoHash(a);
    BlankHasNoHash(b);
    if '#' in l {
      SaysFront(a, l, b);
    } else {
      assert line == line + "" && Within(line, l);
      hide Within, Trim, Blank;
    }
  }

  lemma SaysFront(a: string, l: string, b: string)
    requires Blank(a) && '#' !in a && '#' in l
    ensures Says(a + l + b, Trim(l[..Find(l, '#')]))
  {
    var i := Find(l, '#');
    var t, front, comment := Trim(l[..i]), a + l[..i], l[i..] + b;
    hide *;
    CutIn(a, l, b, i);
    TrimIsWithin(l[..i], t);
    WithinMore(a, l[..i], t);
    SaysIf(front, comment, t);
  }

  lemma CutIn(a: string, l: string, b: string, i: nat)
    requires '#' !in a && i < |l| && l[i] == '#' && forall j :: 0 <= j < i ==> l[j] != '#'
    ensures '#' !in a + l[..i] && (l[i..] + b)[0] == '#' && a + l + b == (a + l[..i]) + (l[i..] + b)
  {
  }

  lemma SaysIf(front: string, comment: string, l: string)
    requires '#' !in front && (comment == "" || comment[0] == '#') && Within(front, l)
    ensures Says(front + comment, l)
  {
    hide Within;
  }

  lemma WithinMore(a: string, s: string, t: string)
    requires Blank(a) && Within(s, t)
    ensures Within(a + s, t)
  {
    hide IsSpace;
    var x, y :| Blank(x) && Blank(y) && s == x + t + y;
    assert Blank(a + x) && a + s == (a + x) + t + y;
  }

  lemma BlankHasNoHash(s: string)
    requires Blank(s)
    ensures '#' !in s
  {
  }

  /** The comment starts at the first '#', so a line says one thing only. */
  lemma SaysOnlyOne(line: string, l: string)
    requires Says(line, l)
    ensures Uncommented(line) == l
  {
    SaysOne(line);
    var front, comment :| line == front + comment && '#' !in front && (comment == "" || comment[0] == '#') &&
                          Within(front, l);
    var front', comment' :| line == front' + comment' && '#' !in front' && (comment' == "" || comment'[0] == '#') &&
                            Within(front', Uncommented(line));
    SameFront(front, comment, front', comment');
    TrimIsWithin(front, l);
    TrimIsWithin(front, Uncommented(line));
  }

  lemma SameFront(a: string, b: string, a': string, b': string)
    requires a + b == a' + b' && '#' !in a && '#' !in a'
    requires (b == "" || b[0] == '#') && (b' == "" || b'[0] == '#')
    ensures a == a'
  {
    var line := a + b;
    assert a == line[..|a|] && a' == line[..|a'|];
  }

  /** The section of that name: the interface keeps what it has, and each peer starts with nothing set. */
  ghost function Opened(s: State, name: string): Result<State, Reason> {
    match name
    case "interface" => Ok(State(InInterface, s.cfg))
    case "peer" =>
      var zero := seq(32, _ => 0);
      Ok(State(InPeer, Config(s.cfg.iface, s.cfg.peers + [Peer(zero, zero, "", [], 0)])))
    case _ => Err(UnknownSection)
  }

  /** What a line does, told by what it says. */
  lemma LineSays(c: Codec, s: State, line: string, l: string)
    requires Says(line, l)
    ensures l == "" ==> Step(c, s, line) == Ok(s)
    ensures forall name :: l == "[" + name + "]" ==> Step(c, s, line) == Opened(s, Lower(name))
    ensures l != "" && '=' !in l && !(l[0] == '[' && l[|l| - 1] == ']') ==> Step(c, s, line) == Err(NoEquals)
    ensures forall k, v, key, value :: l == k + "=" + v && '=' !in k && !(l[0] == '[' && l[|l| - 1] == ']') &&
                                       Within(k, key) && Within(v, value) ==>
              Step(c, s, line) == Assign(c, s, Lower(key), value)
  {
    SaysOnlyOne(line, l);
    hide Says, Uncommented;
    forall name | l == "[" + name + "]" ensures Step(c, s, line) == Opened(s, Lower(name)) {
      HeaderSays(c, s, line, name);
    }
    forall k, v, key, value | l == k + "=" + v && '=' !in k && !(l[0] == '[' && l[|l| - 1] == ']') &&
                              Within(k, key) && Within(v, value)
      ensures Step(c, s, line) == Assign(c, s, Lower(key), value)
    {
      SettingSays(c, s, line, k, v, key, value);
    }
    if l != "" && '=' !in l && !(l[0] == '[' && l[|l| - 1] == ']') {
      CutNone(l, '=');
    }
  }

  lemma HeaderSays(c: Codec, s: State, line: string, name: string)
    requires Uncommented(line) == "[" + name + "]"
    ensures Step(c, s, line) == Opened(s, Lower(name))
  {
    hide Uncommented, Lower;
    var l := Uncommented(line);
    assert l[1..|l| - 1] == name;
  }

  lemma SettingSays(c: Codec, s: State, line: string, k: string, v: string, key: string, value: string)
    requires var l := Uncommented(line); l == k + "=" + v && !(l[0] == '[' && l[|l| - 1] == ']')
    requires '=' !in k && Within(k, key) && Within(v, value)
    ensures Step(c, s, line) == Assign(c, s, Lower(key), value)
  {
    TrimIsWithin(k, key);
    TrimIsWithin(v, value);
    hide Uncommented, Lower, Assign, Within, Trim;
    CutAt(k, '=', v);
  }

  /** Nothing but what its lines say matters for what a text is read as, nor for which line is in error. */
  lemma LayoutDoesNotMatter(c: Codec, a: string, b: string)
    requires |Split(a, '\n')| == |Split(b, '\n')|
    requires forall i :: 0 <= i < |Split(a, '\n')| ==>
               exists l :: Says(Split(a, '\n')[i], l) && Says(Split(b, '\n')[i], l)
    ensures ParseText(c, a) == ParseText(c, b)
  {
    var x, y := Split(a, '\n'), Split(b, '\n');
    forall i | 0 <= i < |x| ensures Uncommented(x[i]) == Uncommented(y[i]) {
      var l :| Says(x[i], l) && Says(y[i], l);
      SaysOnlyOne(x[i], l);
      SaysOnlyOne(y[i], l);
    }
    hide Split, Run, Verdict;
    RunAlike(c, Initial(), x, y, 1);
  }

  lemma {:induction false} RunAlike(c: Codec, s: State, x: seq<string>, y: seq<string>, n: nat)
    requires |x| == |y| && forall i :: 0 <= i < |x| ==> Uncommented(x[i]) == Uncommented(y[i])
    ensures Run(c, s, x, n) == Run(c, s, y, n)
    decreases |x|
  {
    if x != [] {
      assert Step(c, s, x[0]) == Step(c, s, y[0]);
      hide Step, Uncommented;
      if Step(c, s, x[0]).Ok? {
        RunAlike(c, Step(c, s, x[0]).value, x[1..], y[1..], n + 1);
      }
    }
  }

  // ---------------------------------------------------------------- Settings

  ghost predicate ParamKey(key: string) {
    || key == "jc" || key == "jmin" || key == "jmax" || key == "s1" || key == "s2" || key == "s3" || key == "s4"
    || key == "h1" || key == "h2" || key == "h3" || key == "h4"
    || key == "i1" || key == "i2" || key == "i3" || key == "i4" || key == "i5"
  }

  ghost predicate InterfaceKey(key: string) {
    || key == "privatekey" || key == "address" || key == "dns" || key == "listenport" || key == "mtu" || ParamKey(key)
  }

  /** What a client's own tools would do with the interface. */
  ghost predicate ClientKey(key: string) {
    || key == "table" || key == "preup" || key == "postup" || key == "predown" || key == "postdown"
    || key == "saveconfig" || key == "fwmark"
  }

  ghost predicate PeerKey(key: string) {
    || key == "publickey" || key == "presharedkey" || key == "endpoint" || key == "allowedips"
    || key == "persistentkeepalive"
  }

  lemma KnownParamKeys(p: Params.Params, key: string, value: string)
    requires |p.i| == 5
    ensures SetParams(p, key, value) == Err(UnsupportedKey) <==> !ParamKey(key)
  {
    hide Decimal.ParseUint, Params.ParseRange;
    if |key| == 2 {
      assert key == [key[0], key[1]];
    }
  }

  /** Which settings there are: others are errors, and those for the client's own tools change nothing. */
  lemma KnownInterfaceKeys(c: Codec, i: Interface, key: string, value: string)
    requires |i.params.i| == 5
    ensures SetInterface(c, i, key, value) == Err(UnsupportedKey) <==> !InterfaceKey(key) && !ClientKey(key)
    ensures ClientKey(key) ==> SetInterface(c, i, key, value) == Ok(i)
  {
    KnownParamKeys(i.params, key, value);
    hide ParseList, SetParams, Decimal.ParseUint, Decimal.ParseInt, Keys.ParseKey;
    ClientKeysApart(key);
    hide ParamKey;
  }

  lemma ClientKeysApart(key: string)
    ensures ClientKey(key) ==> !InterfaceKey(key)
    ensures ParamKey(key) ==>
              key != "privatekey" && key != "address" && key != "dns" && key != "listenport" && key != "mtu"
  {
  }

  lemma KnownPeerKeys(c: Codec, p: Peer, key: string, value: string)
    ensures SetPeer(c, p, key, value) == Err(UnsupportedKey) <==> !PeerKey(key)
  {
    hide ParseList, Decimal.ParseUint, Keys.ParseKey;
  }

  /** A setting changes its section only: the interface, or the last peer. Outside of a section it is an error. */
  lemma SettingsStay(c: Codec, s: State, key: string, value: string)
    ensures s.section == NoSection ==> Assign(c, s, key, value) == Err(OutsideSection)
    ensures Assign(c, s, key, value).Ok? ==>
              var t := Assign(c, s, key, value).value;
              && t.section == s.section && |t.cfg.peers| == |s.cfg.peers|
              && (s.section == InInterface ==> t.cfg.peers == s.cfg.peers)
              && (s.section == InPeer ==>
                    && t.cfg.iface == s.cfg.iface
                    && forall i :: 0 <= i < |s.cfg.peers| - 1 ==> t.cfg.peers[i] == s.cfg.peers[i])
  {
    hide SetInterface, SetPeer;
  }
}
