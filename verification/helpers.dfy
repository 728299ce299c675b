/**
 * The pure helpers of `Parallax`: attribute deserialisation, hyphen to
 * camelCase conversion, clamping, the ordered object merge (`extend`), the
 * removal of null data values, and the offset accumulation up the chain of
 * offset parents.
 */
module Helpers {
  import opened JsValues

  // ---------------------------------------------------------------------
  // deserialize / data
  // ---------------------------------------------------------------------

  /**
   * Converts the text of a data attribute: the literals "true", "false" and
   * "null" become the corresponding values, a decimal numeral becomes its
   * number, and any other text is returned unchanged.
   */
  function Deserialize(value: string): (r: Value)
    ensures r == Bool(true) <==> value == "true"
    ensures r == Bool(false) <==> value == "false"
    ensures r == Null <==> value == "null"
    ensures r.Num? <==> IsDecimal(value)
    ensures r.Num? ==> r.n == DecimalValue(value)
    ensures r.Str? ==> r.s == value
  {
    assert !IsDecimal("true") && !IsDecimal("false") && !IsDecimal("null") by {
      assert DotIndex("true") == 4 && !IsDigit('t');
      assert DotIndex("false") == 5 && !IsDigit('f');
      assert DotIndex("null") == 4 && !IsDigit('n');
    }
    if value == "true" then Bool(true)
    else if value == "false" then Bool(false)
    else if value == "null" then Null
    else if IsDecimal(value) then Num(DecimalValue(value))
    else Str(value)
  }

  /** Printing an integer into an attribute and reading it back gives the integer. */
  lemma DeserializeIntString(i: int)
    ensures Deserialize(IntString(i)) == Num(i as real)
  {
    IntStringIsDecimal(i);
  }

  /**
   * `data(element, name)`: the deserialised `data-<name>` attribute; a
   * missing attribute reads as null.  `attributes` maps attribute names
   * (without the `data-` prefix) to their text.
   */
  function ReadAttribute(attributes: map<string, string>, name: string): (r: Value)
    ensures name !in attributes ==> r == Null
    ensures name in attributes ==> r == Deserialize(attributes[name])
  {
    if name in attributes then Deserialize(attributes[name]) else Null
  }

  // ---------------------------------------------------------------------
  // camelCase: value.replace(/-+(.)?/g, c => c ? c.toUpperCase() : '')
  // ---------------------------------------------------------------------

  /** The characters a regular-expression `.` does not match. */
  predicate IsLineTerminator(c: char) {
    c == '\n' || c == '\r' || c == '\U{2028}' || c == '\U{2029}'
  }

  /** Upper-casing of one character (ASCII letters; others unchanged). */
  function Upper(c: char): (u: char)
    ensures c != '-' ==> u != '-'
  {
    if 'a' <= c <= 'z' then (c as int - 32) as char else c
  }

  /**
   * The conversion, one character at a time: `inRun` says whether the
   * characters just consumed were a hyphen run.  A hyphen extends the run and
   * is deleted; the first other character after a run is passed through
   * `RunEnd`; a run at the end of the text is deleted.
   */
  function Convert(s: string, inRun: bool): (r: string)
    ensures '-' !in r
    ensures |r| <= |s|
    decreases |s|
  {
    if s == [] then []
    else if s[0] == '-' then Convert(s[1..], true)
    else if inRun then [RunEnd(s[0])] + Convert(s[1..], false)
    else [s[0]] + Convert(s[1..], false)
  }

  /** `camelCase(value)`. */
  function CamelCase(s: string): (r: string) {
    Convert(s, false)
  }

  /**
   * What replaces a hyphen run followed by `c`: `c` upper-cased, or `c`
   * itself when `.` does not match it (the run is then dropped and `c` kept).
   */
  function RunEnd(c: char): (u: char)
    ensures c != '-' ==> u != '-'
  {
    if IsLineTerminator(c) then c else Upper(c)
  }

  /** Whether the conversion of `s`, started in state `inRun`, ends inside a hyphen run. */
  function EndsInRun(s: string, inRun: bool): bool {
    if s == [] then inRun else s[|s| - 1] == '-'
  }

  /** A run of `n` hyphens. */
  function Hyphens(n: nat): (h: string)
    ensures |h| == n && forall i | 0 <= i < n :: h[i] == '-'
  {
    if n == 0 then [] else "-" + Hyphens(n - 1)
  }

  /** Text without hyphens outside a run is left as it is. */
  lemma {:induction false} ConvertIdentity(s: string)
    requires '-' !in s
    ensures Convert(s, false) == s
  {
    if s != [] {
      ConvertIdentity(s[1..]);
    }
  }

  /** The conversion of a concatenation is the concatenation of the conversions. */
  lemma {:induction false} ConvertAppend(a: string, b: string, inRun: bool)
    ensures Convert(a + b, inRun) == Convert(a, inRun) + Convert(b, EndsInRun(a, inRun))
    decreases |a|
  {
    if a == [] {
      assert a + b == b;
    } else {
      assert (a + b)[0] == a[0];
      assert (a + b)[1..] == a[1..] + b;
      ConvertAppend(a[1..], b, a[0] == '-');
      assert EndsInRun(a[1..], a[0] == '-') == EndsInRun(a, inRun);
    }
  }

  /** A run of hyphens converts to nothing. */
  lemma {:induction false} HyphensVanish(n: nat, inRun: bool)
    ensures Convert(Hyphens(n), inRun) == []
  {
    if n > 0 {
      assert Hyphens(n)[1..] == Hyphens(n - 1);
      HyphensVanish(n - 1, true);
    }
  }

  /** A word followed by a hyphen run converts to the word, and ends inside the run. */
  lemma ConvertPrefix(a: string, n: nat)
    requires '-' !in a && n >= 1
    ensures Convert(a + Hyphens(n), false) == a
    ensures EndsInRun(a + Hyphens(n), false)
  {
    var h := Hyphens(n);
    ConvertAppend(a, h, false);
    ConvertIdentity(a);
    HyphensVanish(n, EndsInRun(a, false));
    assert (a + h)[|a + h| - 1] == h[n - 1];
  }

  /** After a run, a word loses nothing but has its first character passed through `RunEnd`. */
  lemma ConvertAfterRun(b: string)
    requires '-' !in b && b != []
    ensures Convert(b, true) == [RunEnd(b[0])] + b[1..]
  {
    assert '-' !in b[1..];
    ConvertIdentity(b[1..]);
  }

  /** Text without hyphens is left as it is. */
  lemma CamelCaseIdentity(s: string)
    requires '-' !in s
    ensures CamelCase(s) == s
  {
    ConvertIdentity(s);
  }

  /**
   * A hyphen run between two words is deleted and the first letter of the
   * second word upper-cased.
   */
  lemma CamelCaseJoin(a: string, n: nat, b: string)
    requires '-' !in a && '-' !in b
    requires n >= 1 && b != []
    ensures CamelCase(a + Hyphens(n) + b) == a + [RunEnd(b[0])] + b[1..]
  {
    var h := Hyphens(n);
    ConvertPrefix(a, n);
    ConvertAfterRun(b);
    ConvertAppend(a + h, b, false);
  }

  /** A trailing run of hyphens contributes nothing. */
  lemma CamelCaseTrailingRun(a: string, n: nat)
    ensures CamelCase(a + Hyphens(n)) == CamelCase(a)
  {
    ConvertAppend(a, Hyphens(n), false);
    HyphensVanish(n, EndsInRun(a, false));
  }

  lemma WebkitTransform()
    ensures CamelCase("webkit-transform") == "webkitTransform"
  {
    var a, b := "webkit", "transform";
    assert Hyphens(1) == "-";
    assert "webkit-transform" == a + Hyphens(1) + b;
    CamelCaseJoin(a, 1, b);
    assert RunEnd('t') == 'T';
    assert b[1..] == "ransform";
    assert a + ['T'] + "ransform" == "webkitTransform";
  }

  // ---------------------------------------------------------------------
  // clamp
  // ---------------------------------------------------------------------

  /** `Math.min(Math.max(value, min), max)`. */
  function Clamp(value: real, min: real, max: real): (r: real)
    ensures min <= max ==> min <= r <= max
    ensures min <= value <= max ==> r == value
    ensures min <= max && value < min ==> r == min
    ensures value > max ==> r == max
    ensures min > max ==> r == max
  {
    var v := if value > min then value else min;
    if v < max then v else max
  }

  // ---------------------------------------------------------------------
  // extend(master, ...sources)
  // ---------------------------------------------------------------------

  /** `master` with the keys of each source written over it, in order. */
  function Merged(master: map<string, Value>, sources: seq<map<string, Value>>): map<string, Value>
    decreases |sources|
  {
    if sources == [] then master
    else Merged(master + sources[0], sources[1..])
  }

  /** Index of the last source that defines `key`, or -1 when none does. */
  function LastSource(sources: seq<map<string, Value>>, key: string): (r: int)
    ensures -1 <= r < |sources|
    ensures r >= 0 ==> key in sources[r]
    ensures forall j | r < j < |sources| :: key !in sources[j]
    decreases |sources|
  {
    if sources == [] then -1
    else
      var later := LastSource(sources[1..], key);
      assert forall j | later + 1 < j < |sources| :: sources[j] == sources[1..][j - 1];
      if later >= 0 then later + 1
      else if key in sources[0] then 0
      else -1
  }

  /**
   * After the merge each key holds the value of the last source that
   * defines it; a key no source defines keeps the master's value.
   */
  lemma {:induction false} MergedLookup(master: map<string, Value>, sources: seq<map<string, Value>>, key: string)
    ensures var i := LastSource(sources, key);
      && (i >= 0 ==> key in Merged(master, sources) && Merged(master, sources)[key] == sources[i][key])
      && (i < 0 ==> (key in Merged(master, sources) <==> key in master))
      && (i < 0 && key in master ==> Merged(master, sources)[key] == master[key])
    decreases |sources|
  {
    if sources != [] {
      MergedLookup(master + sources[0], sources[1..], key);
      var later := LastSource(sources[1..], key);
      if later >= 0 {
        assert sources[1..][later] == sources[later + 1];
      }
    }
  }

  /** Merging three sources is map union, left to right. */
  lemma MergedThree(master: map<string, Value>, a: map<string, Value>, b: map<string, Value>, c: map<string, Value>)
    ensures Merged(master, [a, b, c]) == master + a + b + c
  {
    var sources := [a, b, c];
    assert sources[1..] == [b, c];
    assert sources[1..][1..] == [c];
    assert sources[1..][1..][1..] == [];
    assert Merged(master + a + b, [c]) == master + a + b + c;
    assert Merged(master + a, [b, c]) == master + a + b + c;
  }

  /** `extend(master, sources...)`: copies every key of every source into the master, in order. */
  method Extend(master: map<string, Value>, sources: seq<map<string, Value>>) returns (r: map<string, Value>)
    ensures r == Merged(master, sources)
  {
    r := master;
    var i := 0;
    while i < |sources|
      invariant 0 <= i <= |sources|
      invariant Merged(r, sources[i..]) == Merged(master, sources)
    {
      var source := sources[i];
      var pending := source.Keys;
      ghost var base := r;
      while pending != {}
        invariant pending <= source.Keys
        invariant r == base + (map k | k in source.Keys - pending :: source[k])
        decreases pending
      {
        var key :| key in pending;
        r := r[key := source[key]];
        pending := pending - {key};
      }
      assert (map k | k in source.Keys - {} :: source[k]) == source;
      assert sources[i..][1..] == sources[i + 1..];
      i := i + 1;
    }
  }

  // ---------------------------------------------------------------------
  // Delete null data values
  // ---------------------------------------------------------------------

  /** The entries of `data` whose value is not null. */
  function NonNull(data: map<string, Value>): map<string, Value> {
    map k | k in data && data[k] != Null :: data[k]
  }

  /** `for (key in data) if (data[key] === null) delete data[key]`. */
  method DropNulls(data: map<string, Value>) returns (r: map<string, Value>)
    ensures forall k :: k in r <==> k in data && data[k] != Null
    ensures forall k | k in r :: r[k] == data[k]
    ensures r == NonNull(data)
  {
    r := data;
    var pending := data.Keys;
    while pending != {}
      invariant pending <= data.Keys
      invariant forall k :: k in r ==> k in data && r[k] == data[k]
      invariant forall k | k in data :: k in pending ==> k in r
      invariant forall k | k in data && k !in pending :: k in r <==> data[k] != Null
      decreases pending
    {
      var key :| key in pending;
      if r[key] == Null {
        r := r - {key};
      }
      pending := pending - {key};
    }
  }

  // ---------------------------------------------------------------------
  // offset(element)
  // ---------------------------------------------------------------------

  /**
   * One element of the offset-parent chain.  `None` stands for an
   * `offsetLeft`/`offsetTop` that is NaN (an element without layout).
   */
  datatype Box = Box(offsetLeft: Option<real>, scrollLeft: real, offsetTop: Option<real>, scrollTop: real)

  predicate Measurable(b: Box) {
    b.offsetLeft.Some? && b.offsetTop.Some?
  }

  /** The position of the first element of `chain` relative to the document. */
  function ChainOffset(chain: seq<Box>): (real, real)
    decreases |chain|
  {
    if chain == [] || !Measurable(chain[0]) then (0.0, 0.0)
    else
      var rest := ChainOffset(chain[1..]);
      (chain[0].offsetLeft.value - chain[0].scrollLeft + rest.0,
       chain[0].offsetTop.value - chain[0].scrollTop + rest.1)
  }

  /**
   * `offset(element)`: walks up the offset parents while they have numeric
   * offsets, summing offset minus scroll on each axis.
   */
  method Offset(chain: seq<Box>) returns (left: real, top: real)
    ensures (left, top) == ChainOffset(chain)
  {
    var x, y := 0.0, 0.0;
    var i := 0;
    while i < |chain| && Measurable(chain[i])
      invariant 0 <= i <= |chain|
      invariant ChainOffset(chain) == (x + ChainOffset(chain[i..]).0, y + ChainOffset(chain[i..]).1)
    {
      assert chain[i..][1..] == chain[i + 1..];
      x := x + (chain[i].offsetLeft.value - chain[i].scrollLeft);
      y := y + (chain[i].offsetTop.value - chain[i].scrollTop);
      i := i + 1;
    }
    left, top := x, y;
  }

  /** The walk stops at the first element without numeric offsets. */
  lemma {:induction false} OffsetStopsAtUnmeasurable(a: seq<Box>, bad: Box, b: seq<Box>)
    requires !Measurable(bad)
    ensures ChainOffset(a + [bad] + b) == ChainOffset(a)
    decreases |a|
  {
    if a == [] {
      assert a + [bad] + b == [bad] + b;
    } else if Measurable(a[0]) {
      assert (a + [bad] + b)[1..] == a[1..] + [bad] + b;
      OffsetStopsAtUnmeasurable(a[1..], bad, b);
    }
  }

  /** Offsets add up along the chain: a prefix of laid-out elements contributes its own sum. */
  lemma {:induction false} OffsetAppend(a: seq<Box>, b: seq<Box>)
    requires forall i | 0 <= i < |a| :: Measurable(a[i])
    ensures ChainOffset(a + b).0 == ChainOffset(a).0 + ChainOffset(b).0
    ensures ChainOffset(a + b).1 == ChainOffset(a).1 + ChainOffset(b).1
    decreases |a|
  {
    if a == [] {
      assert a + b == b;
    } else {
      assert (a + b)[1..] == a[1..] + b;
      OffsetAppend(a[1..], b);
    }
  }
}
