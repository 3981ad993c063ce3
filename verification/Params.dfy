/** The obfuscation parameters, and header values as text. */
module Params {
  import opened Wrappers
  import opened Text
  import opened Decimal

  const LIMIT16: nat := 0x1_0000
  const LIMIT32: nat := 0x1_0000_0000

  /** A single number or an inclusive range. */
  datatype Range = Range(lo: nat, hi: nat)

  predicate GoodRange(r: Range) { r.lo <= r.hi < LIMIT32 }

  const ZERO := Range(0, 0)

  function ParseRange(s: string): (r: Option<Range>)
    ensures r.Some? ==> GoodRange(r.value)
  {
    var parts := if Cut(s, '-').Some? then Cut(s, '-').value else (s, s);
    var lo, hi := ParseUint(Trim(parts.0), LIMIT32), ParseUint(Trim(parts.1), LIMIT32);
    if lo == None || hi == None || lo.value > hi.value then None else Some(Range(lo.value, hi.value))
  }

  /** Exactly the texts that are read as the range: its bounds with a minus sign between them, or one number,
      each with any white space around it. */
  lemma RangesOf(s: string, r: Range)
    ensures ParseRange(s) == Some(r) <==>
            r.lo <= r.hi < 0x1_0000_0000 &&
            exists a, b :: '-' !in a && (s == a + ['-'] + b || (s == a && b == a)) &&
                           Numeral(Trim(a), r.lo) && Numeral(Trim(b), r.hi)
  {
    var parts := if Cut(s, '-').Some? then Cut(s, '-').value else (s, s);
    NumeralsOf(Trim(parts.0), LIMIT32, r.lo);
    NumeralsOf(Trim(parts.1), LIMIT32, r.hi);
    assert s == parts.0 + ['-'] + parts.1 || (s == parts.0 && parts.1 == parts.0);
    assert '-' !in parts.0;
    forall a, b | '-' !in a && (s == a + ['-'] + b || (s == a && b == a)) ensures parts == (a, b) {
      if s == a + ['-'] + b {
        CutAt(a, '-', b);
      } else {
        CutNone(a, '-');
      }
    }
    hide Cut, Trim, ParseUint, Numeral;
  }

  function PrintRange(r: Range): string {
    if r.lo == r.hi then Print(r.lo) else Print(r.lo) + ['-'] + Print(r.hi)
  }

  /** A printed header value is read back as itself. */
  lemma RangeBack(r: Range)
    requires GoodRange(r)
    ensures ParseRange(PrintRange(r)) == Some(r)
    ensures PrintRange(r) != "" && Trimmed(PrintRange(r)) && Without(PrintRange(r), {'\n', '#'})
  {
    var a, b := Print(r.lo), Print(r.hi);
    PrintIsPlain(r.lo);
    PrintIsPlain(r.hi);
    ParsePrintUint(r.lo, LIMIT32);
    ParsePrintUint(r.hi, LIMIT32);
    TrimIsTrimmed(a);
    TrimIsTrimmed(b);
    assert Without(a, {'\n', '#'}) && Without(b, {'\n', '#'}) && '-' !in a;
    hide Print, Trim, ParseUint, Trimmed, Without, Cut;
    if r.lo != r.hi {
      CutAt(a, '-', b);
      Joined(a, '-', b, {'\n', '#'});
    } else {
      CutNone(a, '-');
    }
  }

  /** `i` are the five signature chains. */
  datatype Params = Params(jc: nat, jmin: nat, jmax: nat, s1: nat, s2: nat, s3: nat, s4: nat,
                           h1: Range, h2: Range, h3: Range, h4: Range, i: seq<string>)

  predicate GoodParams(p: Params) {
    && p.jc < LIMIT32 && p.jmin < LIMIT32 && p.jmax < LIMIT32
    && p.s1 < LIMIT16 && p.s2 < LIMIT16 && p.s3 < LIMIT16 && p.s4 < LIMIT16
    && GoodRange(p.h1) && GoodRange(p.h2) && GoodRange(p.h3) && GoodRange(p.h4)
    && |p.i| == 5
  }

  const NO_PARAMS := Params(0, 0, 0, 0, 0, 0, 0, ZERO, ZERO, ZERO, ZERO, ["", "", "", "", ""])
}
