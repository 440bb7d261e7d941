/**
 * core_algorithm/utils/dna_design.py: the colour conversion used in the
 * dnaplotlib part table, and the `DNADesign` object that attaches circuit
 * rules to the devices they mention, turns the miniEugene device orders
 * into part orders, copies cassette colours onto their parts and splits
 * each part order into DNA segments at the genetic locations.
 */
module DnaDesign {
  import opened Wrappers
  import opened PyStr
  import opened PyInt
  import opened Dict
  import Json
  import RunEugene

  // ---------------------------------------------------------------------
  // hex_to_rgb
  // ---------------------------------------------------------------------

  /** `s[i:j]` for `0 <= i <= j`: both ends are clamped to the length. */
  function Slice(s: string, i: nat, j: nat): (r: string)
    requires i <= j
    ensures |r| <= j - i
    ensures j <= |s| ==> r == s[i..j]
  {
    var a := if i < |s| then i else |s|;
    var b := if j < |s| then j else |s|;
    s[a..b]
  }

  /** `s.lstrip(c)`: leading copies of `c` removed. */
  function LStripChar(s: string, c: char): (r: string)
    ensures |r| <= |s| && r == s[|s| - |r|..]
  {
    if |s| > 0 && s[0] == c then LStripChar(s[1..], c) else s
  }

  /** A string without `c` is its own `lstrip(c)`. */
  lemma LStripCharAbsent(s: string, c: char)
    requires c !in s
    ensures LStripChar(s, c) == s
  {
  }

  /**
   * `round(m / 255, 2)` in hundredths: the integer nearest to `100m/255`.
   * No tie can arise, since `40m` is even and `51(2h + 1)` is odd.
   */
  function Hundredths(m: nat): nat
  {
    (40 * m + 51) / 102
  }

  /** `Hundredths(m)/100` is within half a hundredth of `m/255`, strictly. */
  lemma HundredthsNearest(m: nat)
    ensures -255 < 2 * (100 * m - 255 * Hundredths(m)) < 255
  {
    var q := Hundredths(m);
    var r := 40 * m + 51 - 102 * q;
    assert 0 <= r < 102;
    assert 2 * (100 * m - 255 * q) == 5 * (r - 51);
  }

  /** The digits after the point in Python's shortest rendering of `f/100`. */
  function FracDigits(f: nat): (s: string)
    requires f < 100
  {
    if f == 0 then "0"
    else if f % 10 == 0 then [DigitChar(f / 10)]
    else [DigitChar(f / 10), DigitChar(f % 10)]
  }

  lemma DigitCharValue(d: nat)
    requires d < 10
    ensures DigitValue(DigitChar(d)) == d
    ensures DigitChar(d) == '0' <==> d == 0
  {
    assert "0123456789"[d] as int - '0' as int == d;
  }

  lemma ParseTwoDigits(a: char, b: char)
    ensures ParseDigits([a]) == DigitValue(a)
    ensures ParseDigits([a, b]) == DigitValue(a) * 10 + DigitValue(b)
  {
    assert [a][..0] == [];
    assert [a, b][..1] == [a];
  }

  /**
   * The fraction digits denote `f` hundredths, have no superfluous trailing
   * zero, and there are one or two of them.
   */
  lemma FracDigitsValue(f: nat)
    requires f < 100
    ensures 1 <= |FracDigits(f)| <= 2
    ensures forall i :: 0 <= i < |FracDigits(f)| ==> '0' <= FracDigits(f)[i] <= '9'
    ensures |FracDigits(f)| == 1 ==> ParseDigits(FracDigits(f)) * 10 == f
    ensures |FracDigits(f)| == 2 ==> ParseDigits(FracDigits(f)) == f && FracDigits(f)[1] != '0'
  {
    DigitCharValue(f / 10);
    DigitCharValue(f % 10);
    ParseTwoDigits(DigitChar(f / 10), DigitChar(f % 10));
    ParseTwoDigits('0', '0');
  }

  /** Python's `str` of the float `h/100` for a whole number of hundredths `h`. */
  function Decimal(h: nat): string
  {
    NatToString(h / 100) + "." + FracDigits(h % 100)
  }

  /** `str(round(n / 255, 2))`: a '-' for negative `n` (also when it rounds to -0.0). */
  function FloatStr(n: int): string
  {
    if n < 0 then "-" + Decimal(Hundredths(-n)) else Decimal(Hundredths(n))
  }

  const Black: string := "0.0;0.0;0.0"

  /** One channel: `int(value[i:i+2], 16)` scaled; a ValueError when the pair does not parse. */
  function Channel(value: string, i: nat): Result<string>
  {
    match ParseInt(Slice(value, i, i + 2), 16)
    case None => Err(ValueError)
    case Some(n) => Ok(FloatStr(n))
  }

  /**
   * `hex_to_rgb(hex_value)`: anything `int(hex_value, 16)` rejects (a
   * non-string, or a string that is not a base-16 literal) gives black;
   * otherwise the three two-character pairs at 0, 2 and 4 of the value are
   * converted, and a pair that does not parse raises ValueError.
   */
  function HexToRgb(v: Json.Value): Result<string>
  {
    if !v.Str? || ParseInt(v.s, 16).None? then Ok(Black)
    else
      Channels(LStripChar(v.s, '#'))
  }

  /** The pairs at 0, 2 and 4 converted and joined with ';', or the ValueError of a pair. */
  function Channels(value: string): Result<string>
  {
    var c0, c1, c2 := Channel(value, 0), Channel(value, 2), Channel(value, 4);
    if c0.Err? || c1.Err? || c2.Err? then Err(ValueError)
    else Ok(c0.value + ";" + c1.value + ";" + c2.value)
  }

  /** The byte written by the two hexadecimal digits at `i` and `i + 1`. */
  function Byte(d: string, i: nat): nat
    requires i + 1 < |d|
  {
    16 * HexValue(d[i]) + HexValue(d[i + 1])
  }

  /** Two hexadecimal digits parse to the byte they write. */
  lemma HexPair(p: string)
    requires |p| == 2 && IsDigit(p[0], 16) && IsDigit(p[1], 16)
    ensures ParseInt(p, 16) == Some(16 * HexValue(p[0]) + HexValue(p[1]))
    ensures 16 * HexValue(p[0]) + HexValue(p[1]) < 256
  {
    PlainHex(p);
    DigitsPair(p);
  }

  lemma DigitsPair(p: string)
    requires |p| == 2 && IsDigit(p[0], 16) && IsDigit(p[1], 16)
    ensures DigitsValue(p, 16) == 16 * HexValue(p[0]) + HexValue(p[1]) < 256
  {
    var a := p[..1];
    assert a[..0] == [] && a[0] == p[0] && p[..|p| - 1] == a;
    assert p[0] != '_' && p[1] != '_';
    assert HexValue(p[0]) < 16 && HexValue(p[1]) < 16;
    assert DigitsValue(a, 16) == HexValue(p[0]);
  }

  /** A channel over two hexadecimal digits is the rendering of their byte. */
  lemma ChannelHex(d: string, i: nat)
    requires i + 1 < |d| && IsDigit(d[i], 16) && IsDigit(d[i + 1], 16)
    ensures Channel(d, i) == Ok(FloatStr(Byte(d, i)))
    ensures Byte(d, i) < 256
  {
    var p := Slice(d, i, i + 2);
    assert p == d[i..i + 2];
    assert p[0] == d[i] && p[1] == d[i + 1];
    HexPair(p);
  }

  /**
   * Six hexadecimal digits convert channel by channel: each channel is the
   * rendering of its byte (below 256) over 255.
   */
  lemma SixHexDigits(d: string)
    requires |d| == 6
    requires forall i :: 0 <= i < 6 ==> IsDigit(d[i], 16)
    ensures Byte(d, 0) < 256 && Byte(d, 2) < 256 && Byte(d, 4) < 256
    ensures HexToRgb(Json.Str(d)) ==
      Ok(FloatStr(Byte(d, 0)) + ";" + FloatStr(Byte(d, 2)) + ";" + FloatStr(Byte(d, 4)))
  {
    PlainHex(d);
    HexToRgbParsed(d);
    ChannelsHex(d);
  }

  lemma ChannelsHex(d: string)
    requires |d| == 6 && IsDigit(d[0], 16) && IsDigit(d[1], 16) && IsDigit(d[2], 16)
    requires IsDigit(d[3], 16) && IsDigit(d[4], 16) && IsDigit(d[5], 16)
    ensures Byte(d, 0) < 256 && Byte(d, 2) < 256 && Byte(d, 4) < 256
    ensures Channels(d) == Ok(FloatStr(Byte(d, 0)) + ";" + FloatStr(Byte(d, 2)) + ";" + FloatStr(Byte(d, 4)))
  {
    ChannelHex(d, 0);
    ChannelHex(d, 2);
    ChannelHex(d, 4);
  }

  /** Once `int(s, 16)` accepts a string without '#', the result is the three channels joined. */
  lemma HexToRgbParsed(s: string)
    requires ParseInt(s, 16).Some? && '#' !in s
    ensures HexToRgb(Json.Str(s)) == Channels(s)
  {
    LStripCharAbsent(s, '#');
  }

  /** What `int(x, 16)` rejects comes out black: non-strings, '', and anything with '#'. */
  lemma HexRejected(v: Json.Value)
    requires !v.Str? || |v.s| == 0 || '#' in v.s
    ensures HexToRgb(v) == Ok(Black)
  {
    if v.Str? {
      ParseIntRejectsHash(v.s, 16);
    }
  }

  /** 'blah' is not a base-16 literal: 'l' is no digit. */
  lemma BlahNotHex(s: string)
    requires s == "blah"
    ensures ParseInt(s, 16).None?
  {
    assert !IsSpace(s[0]) && !IsSpace(s[3]);
    assert LStrip(s) == s;
    assert RStrip(s) == s;
    assert !HasSign(s) && Body(s, 16) == s;
    assert !IsDigit(s[1], 16) && s[1] != '_';
  }

  /** The unit-test input 'blah' comes out black. */
  lemma HexBlah(s: string)
    requires s == "blah"
    ensures HexToRgb(Json.Str(s)) == Ok(Black)
  {
    BlahNotHex(s);
  }

  /** Below one, the decimal is "0." followed by the fraction digits. */
  lemma DecimalSmall(h: nat)
    requires h < 100
    ensures Decimal(h) == "0." + FracDigits(h)
  {
    assert h / 100 == 0 && h % 100 == h;
    assert NatToString(0) == "0";
    assert NatToString(0) + "." == "0.";
  }

  /** Channels below one: `FloatStr(n)` is "0." and the fraction digits of its hundredths. */
  lemma FloatStrSmall(n: nat)
    requires Hundredths(n) < 100
    ensures FloatStr(n) == "0." + FracDigits(Hundredths(n))
  {
    DecimalSmall(Hundredths(n));
  }

  lemma BlackWhiteText()
    ensures FloatStr(0) + ";" + FloatStr(0) + ";" + FloatStr(0) == "0.0;0.0;0.0"
    ensures FloatStr(255) + ";" + FloatStr(255) + ";" + FloatStr(255) == "1.0;1.0;1.0"
  {
    assert Hundredths(0) == 0 && FracDigits(0) == "0";
    FloatStrSmall(0);
    assert Hundredths(255) == 100;
    assert NatToString(1) == "1";
    assert FloatStr(255) == "1.0";
  }

  lemma FloatStrIs(n: nat, h: nat, frac: string)
    requires Hundredths(n) == h < 100 && FracDigits(h) == frac
    ensures FloatStr(n) == "0." + frac
  {
    FloatStrSmall(n);
  }

  /** Two fraction digits, the last not zero. */
  lemma FracDigitsTwo(h: nat, a: char, b: char)
    requires 10 < h < 100 && h % 10 != 0 && DigitChar(h / 10) == a && DigitChar(h % 10) == b
    ensures FracDigits(h) == [a, b]
  {
  }

  lemma TealText()
    ensures FloatStr(59) + ";" + FloatStr(173) + ";" + FloatStr(184) == "0.23;0.68;0.72"
  {
    assert "0123456789"[2] == '2' && "0123456789"[3] == '3' && "0123456789"[6] == '6';
    assert "0123456789"[7] == '7' && "0123456789"[8] == '8';
    FracDigitsTwo(23, '2', '3');
    FracDigitsTwo(68, '6', '8');
    FracDigitsTwo(72, '7', '2');
    assert Hundredths(59) == 23 && Hundredths(173) == 68 && Hundredths(184) == 72;
    FloatStrIs(59, 23, "23");
    FloatStrIs(173, 68, "68");
    FloatStrIs(184, 72, "72");
    assert "0." + "23" == "0.23" && "0." + "68" == "0.68" && "0." + "72" == "0.72";
    assert "0.23" + ";" + "0.68" + ";" + "0.72" == "0.23;0.68;0.72";
  }

  /** The unit-test colour '000000' is black. */
  lemma HexBlack(d: string)
    requires d == "000000"
    ensures HexToRgb(Json.Str(d)) == Ok("0.0;0.0;0.0")
  {
    SixHexDigits(d);
    assert Byte(d, 0) == 0 && Byte(d, 2) == 0 && Byte(d, 4) == 0;
    BlackWhiteText();
  }

  /** The unit-test colour 'FFFFFF' is white. */
  lemma HexWhite(d: string)
    requires d == "FFFFFF"
    ensures HexToRgb(Json.Str(d)) == Ok("1.0;1.0;1.0")
  {
    SixHexDigits(d);
    assert Byte(d, 0) == 255 && Byte(d, 2) == 255 && Byte(d, 4) == 255;
    BlackWhiteText();
  }

  /** The unit-test colour '3badb8' (bytes 59, 173, 184) rounds each channel to two decimals. */
  lemma HexTeal(d: string)
    requires d == "3badb8"
    ensures HexToRgb(Json.Str(d)) == Ok("0.23;0.68;0.72")
  {
    SixHexDigits(d);
    assert Byte(d, 0) == 59 && Byte(d, 2) == 173 && Byte(d, 4) == 184;
    TealText();
  }


  // ---------------------------------------------------------------------
  // Records the design works on
  // ---------------------------------------------------------------------

  /** A device cassette built by the Eugene step. */
  datatype Cassette = Cassette(
    structVarName: string,
    inputs: seq<string>,
    comps: seq<string>,
    outputs: seq<string>,
    color: string,
    cirRules: seq<string>)

  /** A part with its DNA sequence, colour and attached circuit rules. */
  datatype Part = Part(
    partsType: string,
    partsName: string,
    partsSequence: string,
    color: string,
    cirRules: seq<string>)

  /** The three dicts that can hold circuit rules: cassettes, parts and genetic locations. */
  datatype Holders = Holders(
    cassettes: Dict<string, Cassette>,
    parts: Dict<string, Part>,
    fenceposts: Dict<string, seq<string>>)

  // ---------------------------------------------------------------------
  // Attaching circuit rules (prep_to_get_part_orders)
  // ---------------------------------------------------------------------

  const Keywords: seq<string> :=
    ["NOT", "EQUALS", "NEXTTO", "CONTAINS", "STARTSWITH", "ENDSWITH", "BEFORE", "AFTER", "ALL_FORWARD"]

  /** A word of a rule that names a device: no keyword, not an `[n]` index. */
  predicate IsOperand(w: string)
  {
    w !in Keywords && !StartsWith(w, "[")
  }

  /** The operand words of `ws`, in order. */
  function KeepOperands(ws: seq<string>): (ops: seq<string>)
    ensures forall o :: o in ops <==> o in ws && IsOperand(o)
  {
    if |ws| == 0 then []
    else KeepOperands(ws[..|ws| - 1]) + (if IsOperand(ws[|ws| - 1]) then [ws[|ws| - 1]] else [])
  }

  function Operands(r: string): seq<string>
  {
    KeepOperands(Words(r))
  }

  function AddCassetteRule(c: Cassette, r: string): Cassette
  {
    c.(cirRules := c.cirRules + [r])
  }

  function AddPartRule(p: Part, r: string): Part
  {
    p.(cirRules := p.cirRules + [r])
  }

  function AddLocRule(rules: seq<string>, r: string): seq<string>
  {
    rules + [r]
  }

  /** `n` copies of `r`. */
  function Copies(r: string, n: nat): (rs: seq<string>)
    ensures |rs| == n && forall i :: 0 <= i < n ==> rs[i] == r
  {
    if n == 0 then [] else Copies(r, n - 1) + [r]
  }

  lemma {:induction false} RepeatedCassette(c: Cassette, r: string, n: nat)
    ensures Repeated(c, r, n, AddCassetteRule) == c.(cirRules := c.cirRules + Copies(r, n))
  {
    if n > 0 {
      RepeatedCassette(c, r, n - 1);
    }
  }

  lemma {:induction false} RepeatedPart(p: Part, r: string, n: nat)
    ensures Repeated(p, r, n, AddPartRule) == p.(cirRules := p.cirRules + Copies(r, n))
  {
    if n > 0 {
      RepeatedPart(p, r, n - 1);
    }
  }

  lemma {:induction false} RepeatedLoc(rules: seq<string>, r: string, n: nat)
    ensures Repeated(rules, r, n, AddLocRule) == rules + Copies(r, n)
  {
    if n > 0 {
      RepeatedLoc(rules, r, n - 1);
    }
  }

  /** Every operand is among the known names. */
  predicate AllKnown(ops: seq<string>, known: seq<string>)
  {
    forall o :: o in ops ==> o in known
  }

  /** Whether rule `r` is attached: it has operands and all of them are known. */
  predicate Attaches(r: string, known: seq<string>)
  {
    |Operands(r)| > 0 && AllKnown(Operands(r), known)
  }

  /** One iteration of the rule loop. */
  function Attach(h: Holders, known: seq<string>, r: string): Holders
  {
    var ops := Operands(r);
    if Attaches(r, known) then
      Holders(
        AddRuleEach(h.cassettes, ops, r, AddCassetteRule),
        AddRuleEach(h.parts, ops, r, AddPartRule),
        AddRuleEach(h.fenceposts, ops, r, AddLocRule))
    else h
  }

  /** The rule loop over `rules`, with the names known before it started. */
  function AttachAll(h: Holders, known: seq<string>, rules: seq<string>): Holders
  {
    if |rules| == 0 then h
    else Attach(AttachAll(h, known, rules[..|rules| - 1]), known, rules[|rules| - 1])
  }

  /** How many copies of `r` the holder `k` receives. */
  function Times(r: string, known: seq<string>, k: string): nat
  {
    if Attaches(r, known) then multiset(Operands(r))[k] else 0
  }

  /**
   * After one rule, every cassette gains that rule once per mention of its
   * name among the operands, and only when all operands are known; nothing
   * else about it changes, and no cassette appears or disappears.
   */
  lemma AttachCassettes(h: Holders, known: seq<string>, r: string, k: string)
    ensures Get(Attach(h, known, r).cassettes, k) ==
      (match Get(h.cassettes, k)
       case None => None
       case Some(c) => Some(c.(cirRules := c.cirRules + Copies(r, Times(r, known, k)))))
  {
    if Attaches(r, known) {
      AddRuleEachGet(h.cassettes, Operands(r), r, AddCassetteRule, k);
      if Get(h.cassettes, k).Some? {
        RepeatedCassette(Get(h.cassettes, k).value, r, multiset(Operands(r))[k]);
      }
    } else if Get(h.cassettes, k).Some? {
      var c := Get(h.cassettes, k).value;
      assert c.cirRules + Copies(r, 0) == c.cirRules;
    }
  }

  /** The same for parts. */
  lemma AttachParts(h: Holders, known: seq<string>, r: string, k: string)
    ensures Get(Attach(h, known, r).parts, k) ==
      (match Get(h.parts, k)
       case None => None
       case Some(p) => Some(p.(cirRules := p.cirRules + Copies(r, Times(r, known, k)))))
  {
    if Attaches(r, known) {
      AddRuleEachGet(h.parts, Operands(r), r, AddPartRule, k);
      if Get(h.parts, k).Some? {
        RepeatedPart(Get(h.parts, k).value, r, multiset(Operands(r))[k]);
      }
    } else if Get(h.parts, k).Some? {
      var p := Get(h.parts, k).value;
      assert p.cirRules + Copies(r, 0) == p.cirRules;
    }
  }

  /** The same for genetic locations, whose value is the rule list itself. */
  lemma AttachLocs(h: Holders, known: seq<string>, r: string, k: string)
    ensures Get(Attach(h, known, r).fenceposts, k) ==
      (match Get(h.fenceposts, k)
       case None => None
       case Some(rs) => Some(rs + Copies(r, Times(r, known, k))))
  {
    if Attaches(r, known) {
      AddRuleEachGet(h.fenceposts, Operands(r), r, AddLocRule, k);
      if Get(h.fenceposts, k).Some? {
        RepeatedLoc(Get(h.fenceposts, k).value, r, multiset(Operands(r))[k]);
      }
    } else if Get(h.fenceposts, k).Some? {
      var rs := Get(h.fenceposts, k).value;
      assert rs + Copies(r, 0) == rs;
    }
  }

  /** A rule naming an unknown device is attached nowhere. */
  lemma AttachUnknown(h: Holders, known: seq<string>, r: string, o: string)
    requires o in Operands(r) && o !in known
    ensures Attach(h, known, r) == h
  {
  }

  /** `CONTAINS loc` for each location, in order, each added only when absent. */
  function WithLocs(rules: seq<string>, locs: seq<string>): (w: seq<string>)
    ensures rules <= w
  {
    if |locs| == 0 then rules
    else
      var prev := WithLocs(rules, locs[..|locs| - 1]);
      var c := "CONTAINS " + locs[|locs| - 1];
      if c in prev then prev else prev + [c]
  }

  /** The CONTAINS rule of each location, in order. */
  function ContainsRules(locs: seq<string>): (cs: seq<string>)
    ensures |cs| == |locs| && forall i :: 0 <= i < |locs| ==> cs[i] == "CONTAINS " + locs[i]
  {
    if |locs| == 0 then [] else ContainsRules(locs[..|locs| - 1]) + ["CONTAINS " + locs[|locs| - 1]]
  }

  /** Afterwards every location has its CONTAINS rule. */
  lemma {:induction false} WithLocsCovers(rules: seq<string>, locs: seq<string>)
    ensures forall c :: c in ContainsRules(locs) ==> c in WithLocs(rules, locs)
  {
    if |locs| > 0 {
      var init := locs[..|locs| - 1];
      WithLocsCovers(rules, init);
      assert ContainsRules(locs) == ContainsRules(init) + ["CONTAINS " + locs[|locs| - 1]];
    }
  }

  /** Each rule added is the CONTAINS rule of a location and differs from every rule before it. */
  lemma {:induction false} WithLocsFresh(rules: seq<string>, locs: seq<string>, k: int)
    requires |rules| <= k < |WithLocs(rules, locs)|
    ensures WithLocs(rules, locs)[k] in ContainsRules(locs)
    ensures WithLocs(rules, locs)[k] !in WithLocs(rules, locs)[..k]
  {
    var init := locs[..|locs| - 1];
    var prev := WithLocs(rules, init);
    var w := WithLocs(rules, locs);
    assert ContainsRules(locs) == ContainsRules(init) + ["CONTAINS " + locs[|locs| - 1]];
    if k < |prev| {
      WithLocsFresh(rules, init, k);
      assert w[..k] == prev[..k];
    } else {
      assert w[..k] == prev;
    }
  }

  // ---------------------------------------------------------------------
  // Expanding device orders into part orders (get_part_orders)
  // ---------------------------------------------------------------------

  const NoncePad: string := "_NONCE_PAD"

  /**
   * The parts a device of a miniEugene order stands for: a location its
   * pad, a cassette its inputs then its components, anything else the
   * part name of that sequence (KeyError when there is none, and for a
   * Java null).
   */
  function ExpandDevice(h: Holders, device: Option<string>): Result<seq<string>>
  {
    match device
    case None => Err(KeyError)
    case Some(d) =>
      if d in Keys(h.fenceposts) then Ok([d + NoncePad])
      else match Get(h.cassettes, d)
        case Some(c) => Ok(c.inputs + c.comps)
        case None =>
          match Get(h.parts, d)
          case Some(p) => Ok([p.partsName])
          case None => Err(KeyError)
  }

  /** The part list of a whole order; the first failing device decides the error. */
  function ExpandOrder(h: Holders, order: RunEugene.Row): Result<seq<string>>
  {
    if |order| == 0 then Ok([])
    else
      match ExpandOrder(h, order[..|order| - 1])
      case Err(e) => Err(e)
      case Ok(parts) =>
        match ExpandDevice(h, order[|order| - 1])
        case Err(e) => Err(e)
        case Ok(more) => Ok(parts + more)
  }

  /** Expansion works device by device: an order split in two expands to the two part lists joined. */
  lemma {:induction false} ExpandOrderAppend(h: Holders, a: RunEugene.Row, b: RunEugene.Row)
    ensures ExpandOrder(h, a + b) ==
      match ExpandOrder(h, a)
      case Err(e) => Err(e)
      case Ok(pa) =>
        match ExpandOrder(h, b)
        case Err(e) => Err(e)
        case Ok(pb) => Ok(pa + pb)
    decreases |b|
  {
    if |b| == 0 {
      assert a + b == a;
      if ExpandOrder(h, a).Ok? {
        assert ExpandOrder(h, a).value + [] == ExpandOrder(h, a).value;
      }
    } else {
      var init := b[..|b| - 1];
      assert (a + b)[..|a + b| - 1] == a + init;
      assert (a + b)[|a + b| - 1] == b[|b| - 1];
      ExpandOrderAppend(h, a, init);
      match ExpandOrder(h, a) {
        case Err(e) =>
        case Ok(pa) =>
          match ExpandOrder(h, init) {
            case Err(e) =>
            case Ok(pi) =>
              match ExpandDevice(h, b[|b| - 1]) {
                case Err(e) =>
                case Ok(more) => assert pa + pi + more == pa + (pi + more);
              }
          }
      }
    }
  }

  /** The part lists collected so far, and the exception that stopped the loop, if any. */
  datatype Collected = Collected(circuits: seq<seq<string>>, failure: Option<PyError>)

  /** The order loop: each expanded order is appended unless already present. */
  function AddCircuits(vc: seq<seq<string>>, h: Holders, orders: seq<RunEugene.Row>): Collected
  {
    if |orders| == 0 then Collected(vc, None)
    else
      var prev := AddCircuits(vc, h, orders[..|orders| - 1]);
      if prev.failure.Some? then prev
      else
        match ExpandOrder(h, orders[|orders| - 1])
        case Err(e) => Collected(prev.circuits, Some(e))
        case Ok(parts) =>
          Collected(if parts in prev.circuits then prev.circuits else prev.circuits + [parts], None)
  }

  /**
   * The collected part lists keep the earlier ones, never hold a
   * duplicate, and on success contain the expansion of every order.
   */
  lemma {:induction false} AddCircuitsSound(vc: seq<seq<string>>, h: Holders, orders: seq<RunEugene.Row>)
    requires Distinct(vc)
    ensures vc <= AddCircuits(vc, h, orders).circuits
    ensures Distinct(AddCircuits(vc, h, orders).circuits)
    ensures AddCircuits(vc, h, orders).failure.None? ==>
      forall k :: 0 <= k < |orders| ==>
        ExpandOrder(h, orders[k]).Ok? && ExpandOrder(h, orders[k]).value in AddCircuits(vc, h, orders).circuits
  {
    if |orders| > 0 {
      var init := orders[..|orders| - 1];
      AddCircuitsSound(vc, h, init);
      var prev := AddCircuits(vc, h, init);
      if prev.failure.None? {
        assert forall k :: 0 <= k < |init| ==> orders[k] == init[k];
      }
    }
  }

  // ---------------------------------------------------------------------
  // Colours (transfer_part_colors)
  // ---------------------------------------------------------------------

  /** A cassette's colour, or black when it has none. */
  function Shade(color: string): string
  {
    if |color| > 0 then color else "000000"
  }

  /** The parts after colouring, and the exception that stopped the loop, if any. */
  datatype Painted = Painted(parts: Dict<string, Part>, failure: Option<PyError>)

  /** One step of the part loop: a failure stays, a missing part is a KeyError, a present one is recoloured. */
  function PaintOne(prev: Painted, name: string, color: string): (r: Painted)
    ensures Keys(r.parts) == Keys(prev.parts)
  {
    if prev.failure.Some? then prev
    else match Get(prev.parts, name)
      case None => Painted(prev.parts, Some(KeyError))
      case Some(p) => Painted(Put(prev.parts, name, p.(color := color)), None)
  }

  /** `self.sequences[part].color = color` for each name in turn; KeyError at a missing part. */
  function PaintParts(sq: Dict<string, Part>, names: seq<string>, color: string): (r: Painted)
    ensures Keys(r.parts) == Keys(sq)
  {
    if |names| == 0 then Painted(sq, None)
    else PaintOne(PaintParts(sq, names[..|names| - 1], color), names[|names| - 1], color)
  }

  /** The cassette loop: each cassette paints its components, then its outputs. */
  function PaintAll(sq: Dict<string, Part>, cas: Dict<string, Cassette>): (r: Painted)
    ensures Keys(r.parts) == Keys(sq)
  {
    if |cas| == 0 then Painted(sq, None)
    else
      var prev := PaintAll(sq, cas[..|cas| - 1]);
      var c := cas[|cas| - 1].1;
      if prev.failure.Some? then prev
      else
        var afterComps := PaintParts(prev.parts, c.comps, Shade(c.color));
        if afterComps.failure.Some? then afterComps
        else PaintParts(afterComps.parts, c.outputs, Shade(c.color))
  }

  /** A step succeeds iff the loop had not failed and the name is a part. */
  lemma PaintOneOk(prev: Painted, name: string, color: string)
    ensures PaintOne(prev, name, color).failure.None? <==> prev.failure.None? && name in Keys(prev.parts)
  {
  }

  /** A successful step recolours the named part and nothing else. */
  lemma PaintOneGet(prev: Painted, name: string, color: string, k: string)
    requires PaintOne(prev, name, color).failure.None?
    ensures Get(PaintOne(prev, name, color).parts, k) ==
      if k == name then Some(Get(prev.parts, k).value.(color := color)) else Get(prev.parts, k)
  {
    GetPut(prev.parts, name, Get(prev.parts, name).value.(color := color), k);
  }

  /** Painting a list succeeds iff every name is a part. */
  lemma {:induction false} PaintPartsOk(sq: Dict<string, Part>, names: seq<string>, color: string)
    ensures PaintParts(sq, names, color).failure.None? <==> forall n :: n in names ==> n in Keys(sq)
  {
    if |names| > 0 {
      var init := names[..|names| - 1];
      var last := names[|names| - 1];
      assert names == init + [last];
      PaintPartsOk(sq, init, color);
      PaintOneOk(PaintParts(sq, init, color), last, color);
    }
  }

  /** After a successful painting, each listed part has the new colour and the rest are as before. */
  lemma {:induction false} PaintPartsGet(sq: Dict<string, Part>, names: seq<string>, color: string, k: string)
    requires PaintParts(sq, names, color).failure.None?
    ensures Get(PaintParts(sq, names, color).parts, k) ==
        (match Get(sq, k)
         case None => None
         case Some(p) => Some(if k in names then p.(color := color) else p))
  {
    if |names| > 0 {
      var init := names[..|names| - 1];
      var last := names[|names| - 1];
      var prev := PaintParts(sq, init, color);
      PaintOneOk(prev, last, color);
      PaintPartsGet(sq, init, color, k);
      PaintOneGet(prev, last, color, k);
      assert k in names <==> k in init || k == last;
      if k == last {
        PaintPartsGet(sq, init, color, last);
      }
    }
  }

  /** The colour the last cassette (in dict order) listing `k` among its components or outputs gives it. */
  function LastShade(cas: Dict<string, Cassette>, k: string): Option<string>
  {
    if |cas| == 0 then None
    else
      var c := cas[|cas| - 1].1;
      if k in c.comps + c.outputs then Some(Shade(c.color)) else LastShade(cas[..|cas| - 1], k)
  }

  /**
   * When colouring succeeds, every part listed by a cassette carries the
   * colour of the last cassette listing it (black for an empty colour),
   * and every other part is unchanged.
   */
  lemma {:induction false} PaintAllColors(sq: Dict<string, Part>, cas: Dict<string, Cassette>, k: string)
    ensures PaintAll(sq, cas).failure.None? ==>
      Get(PaintAll(sq, cas).parts, k) ==
        (match Get(sq, k)
         case None => None
         case Some(p) => Some(match LastShade(cas, k) case None => p case Some(col) => p.(color := col)))
  {
    if |cas| > 0 {
      var init := cas[..|cas| - 1];
      var c := cas[|cas| - 1].1;
      PaintAllColors(sq, init, k);
      var prev := PaintAll(sq, init);
      if prev.failure.None? {
        var afterComps := PaintParts(prev.parts, c.comps, Shade(c.color));
        if afterComps.failure.None? {
          PaintPartsGet(prev.parts, c.comps, Shade(c.color), k);
          if PaintParts(afterComps.parts, c.outputs, Shade(c.color)).failure.None? {
            PaintPartsGet(afterComps.parts, c.outputs, Shade(c.color), k);
          }
        }
      }
    }
  }

  // ---------------------------------------------------------------------
  // Segments of write_dna_sequences
  // ---------------------------------------------------------------------

  predicate IsPad(part: string)
  {
    EndsWith(part, NoncePad)
  }

  /** The number of location pads in an order. */
  function PadCount(order: seq<string>): nat
  {
    if |order| == 0 then 0 else PadCount(order[..|order| - 1]) + (if IsPad(order[|order| - 1]) then 1 else 0)
  }

  /** The header row built from one order: '' then `Location n (loc)` for its n-th pad. */
  function Header(order: seq<string>): (row: seq<string>)
    ensures |row| == 1 + PadCount(order)
  {
    if |order| == 0 then [""]
    else
      var prev := Header(order[..|order| - 1]);
      var last := order[|order| - 1];
      if IsPad(last) then prev + ["Location " + NatToString(|prev|) + " (" + last[..|last| - |NoncePad|] + ")"]
      else prev
  }

  /**
   * The design row for the order at position `num`: the DNA of the parts
   * between two pads concatenated into one cell, the first cell prefixed
   * with `Design Option <num+1>:`; a part that is no key of the sequences
   * raises KeyError.
   */
  function DesignRow(sq: Dict<string, Part>, num: nat, order: seq<string>): (r: Result<seq<string>>)
    ensures r.Ok? ==> |r.value| == 1 + PadCount(order)
  {
    if |order| == 0 then Ok(["Design Option " + NatToString(num + 1) + ":"])
    else
      match DesignRow(sq, num, order[..|order| - 1])
      case Err(e) => Err(e)
      case Ok(row) =>
        var last := order[|order| - 1];
        if IsPad(last) then Ok(row + [""])
        else match Get(sq, last)
          case None => Err(KeyError)
          case Some(p) => Ok(row[..|row| - 1] + [row[|row| - 1] + p.partsSequence])
  }

  /** The DNA of the non-pad parts of an order, concatenated. */
  function Dna(sq: Dict<string, Part>, order: seq<string>): Result<string>
  {
    if |order| == 0 then Ok("")
    else
      match Dna(sq, order[..|order| - 1])
      case Err(e) => Err(e)
      case Ok(d) =>
        var last := order[|order| - 1];
        if IsPad(last) then Ok(d)
        else match Get(sq, last)
          case None => Err(KeyError)
          case Some(p) => Ok(d + p.partsSequence)
  }

  /** The cells of a design row, read left to right, are the label followed by the order's DNA. */
  lemma {:induction false} DesignRowDna(sq: Dict<string, Part>, num: nat, order: seq<string>)
    ensures DesignRow(sq, num, order).Ok? <==> Dna(sq, order).Ok?
    ensures DesignRow(sq, num, order).Ok? ==>
      Join(DesignRow(sq, num, order).value, "") == "Design Option " + NatToString(num + 1) + ":" + Dna(sq, order).value
  {
    if |order| > 0 {
      DesignRowDna(sq, num, order[..|order| - 1]);
      var row := DesignRow(sq, num, order[..|order| - 1]);
      var last := order[|order| - 1];
      if row.Ok? {
        if IsPad(last) {
          JoinAppendEmpty(row.value);
        } else if Get(sq, last).Some? {
          JoinExtendLast(row.value, Get(sq, last).value.partsSequence);
        }
      }
    }
  }

  /** Joining with "" ignores an extra empty cell. */
  lemma {:induction false} JoinAppendEmpty(cells: seq<string>)
    requires |cells| > 0
    ensures Join(cells + [""], "") == Join(cells, "")
  {
    var c := cells + [""];
    if |cells| > 1 {
      assert c[1..] == cells[1..] + [""];
      JoinAppendEmpty(cells[1..]);
    } else {
      assert c[1..] == [""];
    }
  }

  /** Joining with "" after extending the last cell appends the extension. */
  lemma {:induction false} JoinExtendLast(cells: seq<string>, x: string)
    requires |cells| > 0
    ensures Join(cells[..|cells| - 1] + [cells[|cells| - 1] + x], "") == Join(cells, "") + x
  {
    var c := cells[..|cells| - 1] + [cells[|cells| - 1] + x];
    if |cells| > 1 {
      var t := cells[1..];
      assert c[0] == cells[0];
      assert c[1..] == t[..|t| - 1] + [t[|t| - 1] + x];
      JoinExtendLast(t, x);
      assert Join(c, "") == cells[0] + "" + Join(c[1..], "");
      assert Join(cells, "") == cells[0] + "" + Join(t, "");
    }
  }

  /** The rows of the sequences file: one per collected part list, numbered from 1. */
  function DesignRows(sq: Dict<string, Part>, circuits: seq<seq<string>>): (r: Result<seq<seq<string>>>)
    ensures r.Ok? ==> |r.value| == |circuits|
  {
    if |circuits| == 0 then Ok([])
    else
      match DesignRows(sq, circuits[..|circuits| - 1])
      case Err(e) => Err(e)
      case Ok(rows) =>
        match DesignRow(sq, |circuits| - 1, circuits[|circuits| - 1])
        case Err(e) => Err(e)
        case Ok(row) => Ok(rows + [row])
  }

  /**
   * The rows `write_dna_sequences` writes: the header built from the last
   * part list, then one design row per part list.  Without any part list
   * the header variable is never bound.
   */
  function DnaSequences(sq: Dict<string, Part>, circuits: seq<seq<string>>): Result<seq<seq<string>>>
  {
    if |circuits| == 0 then Err(UnboundLocalError)
    else
      match DesignRows(sq, circuits)
      case Err(e) => Err(e)
      case Ok(rows) => Ok([Header(circuits[|circuits| - 1])] + rows)
  }

  /** Row `k` of the design rows is the design row of part list `k`. */
  lemma {:induction false} DesignRowsAt(sq: Dict<string, Part>, circuits: seq<seq<string>>, k: int)
    requires DesignRows(sq, circuits).Ok? && 0 <= k < |circuits|
    ensures DesignRow(sq, k, circuits[k]).Ok?
    ensures DesignRows(sq, circuits).value[k] == DesignRow(sq, k, circuits[k]).value
  {
    var init := circuits[..|circuits| - 1];
    if k < |init| {
      DesignRowsAt(sq, init, k);
    }
  }

  /**
   * A written file has the header of the last part list, whose cells are one
   * more than its location pads, followed by the design rows in order; each
   * row reads as its label followed by the DNA of its part list.
   */
  lemma DnaSequencesShape(sq: Dict<string, Part>, circuits: seq<seq<string>>, k: int)
    requires DnaSequences(sq, circuits).Ok? && 0 <= k < |circuits|
    ensures |DnaSequences(sq, circuits).value| == |circuits| + 1
    ensures |DnaSequences(sq, circuits).value[0]| == 1 + PadCount(circuits[|circuits| - 1])
    ensures Dna(sq, circuits[k]).Ok?
    ensures Join(DnaSequences(sq, circuits).value[k + 1], "") ==
              "Design Option " + NatToString(k + 1) + ":" + Dna(sq, circuits[k]).value
  {
    DesignRowsAt(sq, circuits, k);
    DesignRowDna(sq, k, circuits[k]);
  }

  /** Some part list names a part that is no key of the sequences: then nothing is written. */
  lemma DnaSequencesMissing(sq: Dict<string, Part>, circuits: seq<seq<string>>, k: int)
    requires 0 <= k < |circuits| && Dna(sq, circuits[k]).Err?
    ensures DnaSequences(sq, circuits).Err?
  {
    if DnaSequences(sq, circuits).Ok? {
      DnaSequencesShape(sq, circuits, k);
    }
  }

  // ---------------------------------------------------------------------
  // A failure stops each loop: later elements change nothing
  // ---------------------------------------------------------------------

  lemma {:induction false} ExpandOrderErrStays(h: Holders, order: RunEugene.Row, n: int)
    requires 0 <= n <= |order| && ExpandOrder(h, order[..n]).Err?
    ensures ExpandOrder(h, order) == ExpandOrder(h, order[..n])
  {
    assert order == order[..n] + order[n..];
    ExpandOrderAppend(h, order[..n], order[n..]);
  }

  lemma {:induction false} AddCircuitsErrStays(vc: seq<seq<string>>, h: Holders, orders: seq<RunEugene.Row>, n: int)
    requires 0 <= n <= |orders| && AddCircuits(vc, h, orders[..n]).failure.Some?
    ensures AddCircuits(vc, h, orders) == AddCircuits(vc, h, orders[..n])
    decreases |orders|
  {
    if n < |orders| {
      var init := orders[..|orders| - 1];
      assert init[..n] == orders[..n];
      AddCircuitsErrStays(vc, h, init, n);
    } else {
      assert orders[..n] == orders;
    }
  }

  lemma {:induction false} PaintPartsErrStays(sq: Dict<string, Part>, names: seq<string>, color: string, n: int)
    requires 0 <= n <= |names| && PaintParts(sq, names[..n], color).failure.Some?
    ensures PaintParts(sq, names, color) == PaintParts(sq, names[..n], color)
    decreases |names|
  {
    if n < |names| {
      var init := names[..|names| - 1];
      assert init[..n] == names[..n];
      PaintPartsErrStays(sq, init, color, n);
    } else {
      assert names[..n] == names;
    }
  }

  lemma {:induction false} PaintAllErrStays(sq: Dict<string, Part>, cas: Dict<string, Cassette>, n: int)
    requires 0 <= n <= |cas| && PaintAll(sq, cas[..n]).failure.Some?
    ensures PaintAll(sq, cas) == PaintAll(sq, cas[..n])
    decreases |cas|
  {
    if n < |cas| {
      var init := cas[..|cas| - 1];
      assert init[..n] == cas[..n];
      PaintAllErrStays(sq, init, n);
    } else {
      assert cas[..n] == cas;
    }
  }

  /** One more cassette: its components are painted, then, unless that failed, its outputs. */
  lemma PaintAllNext(sq: Dict<string, Part>, cas: Dict<string, Cassette>, i: nat, mid: Painted)
    requires i < |cas| && PaintAll(sq, cas[..i]).failure.None?
    requires mid == PaintParts(PaintAll(sq, cas[..i]).parts, cas[i].1.comps, Shade(cas[i].1.color))
    ensures PaintAll(sq, cas[..i + 1]) ==
      if mid.failure.Some? then mid else PaintParts(mid.parts, cas[i].1.outputs, Shade(cas[i].1.color))
  {
    assert cas[..i + 1][..i] == cas[..i];
  }

  lemma {:induction false} DesignRowErrStays(sq: Dict<string, Part>, num: nat, order: seq<string>, n: int)
    requires 0 <= n <= |order| && DesignRow(sq, num, order[..n]).Err?
    ensures DesignRow(sq, num, order) == DesignRow(sq, num, order[..n])
    decreases |order|
  {
    if n < |order| {
      var init := order[..|order| - 1];
      assert init[..n] == order[..n];
      DesignRowErrStays(sq, num, init, n);
    } else {
      assert order[..n] == order;
    }
  }

  lemma {:induction false} DesignRowsErrStays(sq: Dict<string, Part>, circuits: seq<seq<string>>, n: int)
    requires 0 <= n <= |circuits| && DesignRows(sq, circuits[..n]).Err?
    ensures DesignRows(sq, circuits) == DesignRows(sq, circuits[..n])
    decreases |circuits|
  {
    if n < |circuits| {
      var init := circuits[..|circuits| - 1];
      assert init[..n] == circuits[..n];
      DesignRowsErrStays(sq, init, n);
    } else {
      assert circuits[..n] == circuits;
    }
  }

  // ---------------------------------------------------------------------
  // The design object
  // ---------------------------------------------------------------------

  /**
   * `DNADesign`: the cassettes, parts ("sequences") and genetic locations
   * ("fenceposts") of a circuit, its circuit rules, and the part lists
   * collected from the miniEugene orders.
   */
  class Design {
    var cassettes: Dict<string, Cassette>
    var sequences: Dict<string, Part>
    var fenceposts: Dict<string, seq<string>>
    var circuitRules: seq<string>
    var validCircuits: seq<seq<string>>

    constructor(cassettes: Dict<string, Cassette>, sequences: Dict<string, Part>,
                fenceposts: Dict<string, seq<string>>, circuitRules: seq<string>)
      ensures this.cassettes == cassettes && this.sequences == sequences && this.fenceposts == fenceposts
      ensures this.circuitRules == circuitRules && validCircuits == []
    {
      this.cassettes := cassettes;
      this.sequences := sequences;
      this.fenceposts := fenceposts;
      this.circuitRules := circuitRules;
      validCircuits := [];
    }

    /** The three rule holders. */
    function Rules(): Holders
      reads this
    {
      Holders(cassettes, sequences, fenceposts)
    }

    /** The names a rule operand may refer to: parts, then cassettes, then locations. */
    function Known(): seq<string>
      reads this
    {
      Keys(sequences) + Keys(cassettes) + Keys(fenceposts)
    }

    /** Append `r` to the rules of whatever `o` names: a cassette, a part, a location. */
    method AttachOperand(o: string, r: string)
      modifies this
      ensures cassettes == AddRule(old(cassettes), o, r, AddCassetteRule)
      ensures sequences == AddRule(old(sequences), o, r, AddPartRule)
      ensures fenceposts == AddRule(old(fenceposts), o, r, AddLocRule)
      ensures circuitRules == old(circuitRules) && validCircuits == old(validCircuits)
    {
      match Get(cassettes, o) {
        case Some(c) => cassettes := Put(cassettes, o, AddCassetteRule(c, r));
        case None =>
      }
      match Get(sequences, o) {
        case Some(p) => sequences := Put(sequences, o, AddPartRule(p, r));
        case None =>
      }
      match Get(fenceposts, o) {
        case Some(rs) => fenceposts := Put(fenceposts, o, AddLocRule(rs, r));
        case None =>
      }
    }

    /** One pass of the rule loop: attach `r` to every holder its operands name. */
    method AttachRule(r: string, known: seq<string>)
      requires r in circuitRules
      modifies this
      ensures Rules() == Attach(old(Rules()), known, r)
      ensures circuitRules == old(circuitRules) && validCircuits == old(validCircuits)
    {
      var ops := Operands(r);
      if |ops| == 0 {
        // The source re-appends `r` here when it is absent, which it never is.
        assert r in circuitRules;
      } else if AllKnown(ops, known) {
        AttachToOperands(ops, r);
      }
    }

    /** The operand loop: `r` goes to whatever each operand names, once per mention. */
    method AttachToOperands(ops: seq<string>, r: string)
      modifies this
      ensures cassettes == AddRuleEach(old(cassettes), ops, r, AddCassetteRule)
      ensures sequences == AddRuleEach(old(sequences), ops, r, AddPartRule)
      ensures fenceposts == AddRuleEach(old(fenceposts), ops, r, AddLocRule)
      ensures circuitRules == old(circuitRules) && validCircuits == old(validCircuits)
    {
      var j := 0;
      while j < |ops|
        invariant 0 <= j <= |ops|
        invariant cassettes == AddRuleEach(old(cassettes), ops[..j], r, AddCassetteRule)
        invariant sequences == AddRuleEach(old(sequences), ops[..j], r, AddPartRule)
        invariant fenceposts == AddRuleEach(old(fenceposts), ops[..j], r, AddLocRule)
        invariant circuitRules == old(circuitRules) && validCircuits == old(validCircuits)
      {
        AddRuleEachPrefix(old(cassettes), ops, j, r, AddCassetteRule);
        AddRuleEachPrefix(old(sequences), ops, j, r, AddPartRule);
        AddRuleEachPrefix(old(fenceposts), ops, j, r, AddLocRule);
        AttachOperand(ops[j], r);
        j := j + 1;
      }
      assert ops[..|ops|] == ops;
    }

    /**
     * `prep_to_get_part_orders`: every circuit rule is attached to the
     * holders it names (the names known at the start decide), then every
     * location gets its `CONTAINS` rule unless already present.
     */
    method PrepToGetPartOrders()
      modifies this
      ensures Rules() == AttachAll(old(Rules()), old(Known()), old(circuitRules))
      ensures circuitRules == WithLocs(old(circuitRules), Keys(fenceposts))
      ensures validCircuits == old(validCircuits)
    {
      var known := Known();
      var i := 0;
      while i < |circuitRules|
        invariant 0 <= i <= |circuitRules|
        invariant circuitRules == old(circuitRules) && validCircuits == old(validCircuits)
        invariant Rules() == AttachAll(old(Rules()), known, circuitRules[..i])
      {
        assert circuitRules[..i + 1][..i] == circuitRules[..i];
        AttachRule(circuitRules[i], known);
        i := i + 1;
      }
      assert circuitRules[..i] == circuitRules;
      var locs := Keys(fenceposts);
      var k := 0;
      while k < |locs|
        invariant 0 <= k <= |locs|
        invariant Rules() == AttachAll(old(Rules()), known, old(circuitRules))
        invariant validCircuits == old(validCircuits)
        invariant circuitRules == WithLocs(old(circuitRules), locs[..k])
      {
        assert locs[..k + 1][..k] == locs[..k];
        var c := "CONTAINS " + locs[k];
        if c !in circuitRules {
          circuitRules := circuitRules + [c];
        }
        k := k + 1;
      }
      assert locs[..k] == locs;
    }

    /** The part list of one miniEugene order; KeyError at a device that is nothing known. */
    method PartsOf(order: RunEugene.Row) returns (r: Result<seq<string>>)
      ensures r == ExpandOrder(Rules(), order)
    {
      var parts: seq<string> := [];
      var i := 0;
      while i < |order|
        invariant 0 <= i <= |order|
        invariant ExpandOrder(Rules(), order[..i]) == Ok(parts)
      {
        assert order[..i + 1][..i] == order[..i];
        assert ExpandOrder(Rules(), order[..i + 1]) ==
          match ExpandDevice(Rules(), order[i])
          case Err(e) => Err(e)
          case Ok(more) => Ok(parts + more);
        match order[i] {
          case None =>
            ExpandOrderErrStays(Rules(), order, i + 1);
            return Err(KeyError);
          case Some(device) =>
            if device in Keys(fenceposts) {
              parts := parts + [device + NoncePad];
            } else {
              match Get(cassettes, device) {
                case Some(c) =>
                  assert parts + c.inputs + c.comps == parts + (c.inputs + c.comps);
                  parts := parts + c.inputs + c.comps;
                case None =>
                  match Get(sequences, device) {
                    case Some(p) =>
                      parts := parts + [p.partsName];
                    case None =>
                      ExpandOrderErrStays(Rules(), order, i + 1);
                      return Err(KeyError);
                  }
              }
            }
        }
        i := i + 1;
      }
      assert order[..i] == order;
      r := Ok(parts);
    }

    /**
     * `get_part_orders`: the circuit rules are augmented in place by the
     * miniEugene call; each selected order is expanded into parts and the
     * part list kept unless already collected.  An exception leaves the
     * lists collected before it.
     */
    method GetPartOrders(miniPermute: RunEugene.Permuter) returns (r: Result<seq<seq<string>>>)
      modifies this
      ensures Rules() == old(Rules())
      ensures circuitRules == RunEugene.Augmented(old(circuitRules))
      ensures RunEugene.CallOrders(old(circuitRules), miniPermute, 100).Err? ==>
        r == Err(RunEugene.CallOrders(old(circuitRules), miniPermute, 100).error) &&
        validCircuits == old(validCircuits)
      ensures RunEugene.CallOrders(old(circuitRules), miniPermute, 100).Ok? ==>
        var c := AddCircuits(old(validCircuits), Rules(), RunEugene.CallOrders(old(circuitRules), miniPermute, 100).value);
        validCircuits == c.circuits &&
        r == (if c.failure.Some? then Err(c.failure.value) else Ok(validCircuits))
    {
      var newRules, selected, _ := RunEugene.CallMiniEugene(circuitRules, miniPermute, 100);
      circuitRules := newRules;
      if selected.Err? {
        return Err(selected.error);
      }
      var orders := selected.value;
      var i := 0;
      while i < |orders|
        invariant 0 <= i <= |orders|
        invariant Rules() == old(Rules()) && circuitRules == newRules
        invariant AddCircuits(old(validCircuits), Rules(), orders[..i]) == Collected(validCircuits, None)
      {
        assert orders[..i + 1][..i] == orders[..i];
        var parts := PartsOf(orders[i]);
        if parts.Err? {
          AddCircuitsErrStays(old(validCircuits), Rules(), orders, i + 1);
          return Err(parts.error);
        }
        if parts.value !in validCircuits {
          validCircuits := validCircuits + [parts.value];
        }
        i := i + 1;
      }
      assert orders[..i] == orders;
      r := Ok(validCircuits);
    }

    /** Colour each listed part; stops with KeyError at the first name that is not a part. */
    method PaintList(names: seq<string>, color: string) returns (failure: Option<PyError>)
      modifies this
      ensures Painted(sequences, failure) == PaintParts(old(sequences), names, color)
      ensures cassettes == old(cassettes) && fenceposts == old(fenceposts)
      ensures circuitRules == old(circuitRules) && validCircuits == old(validCircuits)
    {
      var i := 0;
      while i < |names|
        invariant 0 <= i <= |names|
        invariant PaintParts(old(sequences), names[..i], color) == Painted(sequences, None)
        invariant cassettes == old(cassettes) && fenceposts == old(fenceposts)
        invariant circuitRules == old(circuitRules) && validCircuits == old(validCircuits)
      {
        assert names[..i + 1][..i] == names[..i];
        match Get(sequences, names[i]) {
          case None =>
            PaintPartsErrStays(old(sequences), names, color, i + 1);
            return Some(KeyError);
          case Some(p) =>
            sequences := Put(sequences, names[i], p.(color := color));
        }
        i := i + 1;
      }
      assert names[..i] == names;
      failure := None;
    }

    /**
     * `transfer_part_colors`: every component and output part of each
     * cassette takes the cassette's colour, or black when it has none;
     * KeyError at a part that is not among the sequences.
     */
    method TransferPartColors() returns (failure: Option<PyError>)
      modifies this
      ensures Painted(sequences, failure) == PaintAll(old(sequences), cassettes)
      ensures cassettes == old(cassettes) && fenceposts == old(fenceposts)
      ensures circuitRules == old(circuitRules) && validCircuits == old(validCircuits)
    {
      var i := 0;
      while i < |cassettes|
        invariant 0 <= i <= |cassettes|
        invariant PaintAll(old(sequences), cassettes[..i]) == Painted(sequences, None)
        invariant cassettes == old(cassettes) && fenceposts == old(fenceposts)
        invariant circuitRules == old(circuitRules) && validCircuits == old(validCircuits)
      {
        var c := cassettes[i].1;
        var color := if |c.color| > 0 then c.color else "000000";
        PaintAllNext(old(sequences), cassettes, i, PaintParts(sequences, c.comps, color));
        failure := PaintList(c.comps, color);
        if failure.None? {
          failure := PaintList(c.outputs, color);
        }
        if failure.Some? {
          PaintAllErrStays(old(sequences), cassettes, i + 1);
          return;
        }
        i := i + 1;
      }
      assert cassettes[..i] == cassettes;
      failure := None;
    }

    /** The header cells for one part list. */
    method HeaderOf(order: seq<string>) returns (segments: seq<string>)
      ensures segments == Header(order)
    {
      segments := [""];
      var count := 1;
      var i := 0;
      while i < |order|
        invariant 0 <= i <= |order|
        invariant segments == Header(order[..i]) && count == |segments|
      {
        assert order[..i + 1][..i] == order[..i];
        var part := order[i];
        if EndsWith(part, NoncePad) {
          segments := segments + ["Location " + NatToString(count) + " (" + part[..|part| - 10] + ")"];
          count := count + 1;
        }
        i := i + 1;
      }
      assert order[..i] == order;
    }

    /** The design row for the part list at position `num`. */
    method RowOf(num: nat, order: seq<string>) returns (r: Result<seq<string>>)
      ensures r == DesignRow(sequences, num, order)
    {
      var sequence := ["Design Option " + NatToString(num + 1) + ":"];
      var index := 0;
      var i := 0;
      while i < |order|
        invariant 0 <= i <= |order|
        invariant DesignRow(sequences, num, order[..i]) == Ok(sequence) && index == |sequence| - 1
      {
        assert order[..i + 1][..i] == order[..i];
        var part := order[i];
        if !EndsWith(part, NoncePad) {
          match Get(sequences, part) {
            case None =>
              DesignRowErrStays(sequences, num, order, i + 1);
              return Err(KeyError);
            case Some(p) =>
              assert sequence[index := sequence[index] + p.partsSequence] ==
                sequence[..|sequence| - 1] + [sequence[|sequence| - 1] + p.partsSequence];
              sequence := sequence[index := sequence[index] + p.partsSequence];
          }
        } else {
          index := index + 1;
          sequence := sequence + [""];
        }
        i := i + 1;
      }
      assert order[..i] == order;
      r := Ok(sequence);
    }

    /** `write_dna_sequences`: the rows of the sequences file, or the exception that stops it. */
    method WriteDnaSequences() returns (r: Result<seq<seq<string>>>)
      ensures r == DnaSequences(sequences, validCircuits)
    {
      if |validCircuits| == 0 {
        return Err(UnboundLocalError);
      }
      var segments: seq<string> := [];
      for n := 0 to |validCircuits|
        invariant n > 0 ==> segments == Header(validCircuits[n - 1])
      {
        segments := HeaderOf(validCircuits[n]);
      }
      var rows: seq<seq<string>> := [segments];
      assert validCircuits[..0] == [] && rows[1..] == [];
      for num := 0 to |validCircuits|
        invariant |rows| == num + 1 && rows[0] == segments
        invariant DesignRows(sequences, validCircuits[..num]) == Ok(rows[1..])
      {
        assert validCircuits[..num + 1][..num] == validCircuits[..num];
        var row := RowOf(num, validCircuits[num]);
        if row.Err? {
          DesignRowsErrStays(sequences, validCircuits, num + 1);
          return Err(row.error);
        }
        assert (rows + [row.value])[1..] == rows[1..] + [row.value];
        rows := rows + [row.value];
      }
      assert validCircuits[..|validCircuits|] == validCircuits;
      assert rows == [Header(validCircuits[|validCircuits| - 1])] + rows[1..];
      r := Ok(rows);
    }
  }
}
