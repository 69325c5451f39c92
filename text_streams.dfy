/**
  The parts of the C++ stream library the two OBJ parsers and the MTL parser rely on:
  `std::istringstream` extraction with `>>` into strings, floats and ints, `std::getline`
  with a delimiter, `std::stoi`, `std::stoul` (32-bit `unsigned long`, as on Windows) and
  `std::to_string`. Only the behaviour the parsers can observe is modelled: which
  characters are consumed, the stream's eof and fail bits, and what is stored into the
  target variable.
*/
module TextStreams {
  import opened Wrappers

  /** `isspace` in the "C" locale. */
  predicate IsSpace(c: char) {
    c == ' ' || c == '\t' || c == '\n' || c == '\r' || c == '\U{B}' || c == '\U{C}'
  }

  predicate IsDigit(c: char) {
    '0' <= c <= '9'
  }

  predicate IsSign(c: char) {
    c == '+' || c == '-'
  }

  function DigitValue(c: char): (d: nat)
    requires IsDigit(c)
    ensures d <= 9
  {
    c as int - '0' as int
  }

  /** The number a string of decimal digits denotes. */
  function DigitsValue(ds: string): nat
    requires forall i :: 0 <= i < |ds| ==> IsDigit(ds[i])
  {
    if ds == [] then 0 else DigitsValue(ds[..|ds| - 1]) * 10 + DigitValue(ds[|ds| - 1])
  }

  function Pow10(n: nat): (p: nat)
    ensures p >= 1
  {
    if n == 0 then 1 else 10 * Pow10(n - 1)
  }

  /** `10^e` for an integer exponent, as a real. */
  function Pow10Real(e: int): (p: real)
    ensures p > 0.0
  {
    if e >= 0 then Pow10(e) as real else 1.0 / (Pow10(-e) as real)
  }

  /** An `std::istringstream`: the characters not read yet, and its eofbit and failbit. */
  datatype Stream = Stream(rest: string, eof: bool, fail: bool) {
    /** `good()`: a sentry object constructed on this stream succeeds. */
    predicate Good() {
      !eof && !fail
    }
  }

  /** A freshly constructed `std::istringstream(s)`. */
  function Open(s: string): (st: Stream)
    ensures st.Good() && st.rest == s
  {
    Stream(s, false, false)
  }

  /**
    What a `>>` extraction did to its target: left it untouched (the sentry failed, that is
    the stream was not good or held only white space), stored zero (the characters were no
    number: C++11 writes 0 and sets failbit), or stored the value read.
  */
  datatype Extracted<T> = Untouched | Zeroed | Got(value: T)

  /** The value a target holds after an extraction, given the value it held before. */
  function Store(old_: real, e: Extracted<real>): (r: real)
    ensures e.Untouched? ==> r == old_
    ensures e.Zeroed? ==> r == 0.0
    ensures e.Got? ==> r == e.value
  {
    match e
    case Untouched => old_
    case Zeroed => 0.0
    case Got(v) => v
  }

  function SkipSpaces(s: string): (r: string)
    ensures |r| <= |s| && r == s[|s| - |r|..]
    ensures r == [] || !IsSpace(r[0])
    ensures forall i :: 0 <= i < |s| - |r| ==> IsSpace(s[i])
  {
    if s != [] && IsSpace(s[0]) then
      var r := SkipSpaces(s[1..]);
      assert forall i | 1 <= i < |s| - |r| :: s[i] == s[1..][i - 1];
      r
    else s
  }

  /** The length of the longest prefix of `s` without white space. */
  function WordLength(s: string): (n: nat)
    ensures n <= |s|
    ensures forall i :: 0 <= i < n ==> !IsSpace(s[i])
    ensures n == |s| || IsSpace(s[n])
  {
    if s == [] || IsSpace(s[0]) then 0 else 1 + WordLength(s[1..])
  }

  /** The index just past the digits of `s` that start at `i`. */
  function ScanDigits(s: string, i: nat): (j: nat)
    requires i <= |s|
    ensures i <= j <= |s|
    ensures forall k :: i <= k < j ==> IsDigit(s[k])
    ensures j == |s| || !IsDigit(s[j])
    decreases |s| - i
  {
    if i < |s| && IsDigit(s[i]) then ScanDigits(s, i + 1) else i
  }

  /**
    `in >> str` for an `std::string str`: skips white space and reads one word. `None` means
    the sentry failed and `str` keeps its contents; the stream is then failed.
  */
  function ReadWord(st: Stream): (r: (Stream, Option<string>))
    ensures r.1.None? ==> r.0.fail
    ensures r.1.Some? ==> st.Good() && !r.0.fail && |r.0.rest| < |st.rest| && r.1.value != []
    ensures st.Good() && SkipSpaces(st.rest) != [] ==> r.1.Some?
  {
    if !st.Good() then (st.(fail := true), None)
    else
      var s := SkipSpaces(st.rest);
      if s == [] then (Stream([], true, true), None)
      else
        var n := WordLength(s);
        (Stream(s[n..], n == |s|, false), Some(s[..n]))
  }

  /** A word read is the next run of non-space characters after the skipped white space. */
  lemma ReadWordSplits(st: Stream)
    requires ReadWord(st).1.Some?
    ensures SkipSpaces(st.rest) == ReadWord(st).1.value + ReadWord(st).0.rest
    ensures forall i :: 0 <= i < |ReadWord(st).1.value| ==> !IsSpace(ReadWord(st).1.value[i])
    ensures ReadWord(st).0.rest == [] || IsSpace(ReadWord(st).0.rest[0])
  {
    var s := SkipSpaces(st.rest);
    var n := WordLength(s);
    assert ReadWord(st) == (Stream(s[n..], n == |s|, false), Some(s[..n]));
    WordSplit(s, n);
  }

  /** The word of `s` and what follows it make up `s`; the word has no space and is followed by one or by nothing. */
  lemma WordSplit(s: string, n: nat)
    requires n == WordLength(s)
    ensures s == s[..n] + s[n..]
    ensures forall i :: 0 <= i < |s[..n]| ==> !IsSpace(s[..n][i])
    ensures s[n..] == [] || IsSpace(s[n..][0])
  {
    assert forall i :: 0 <= i < n ==> s[..n][i] == s[i];
  }

  /** The words a `while (in >> word)` loop reads, in order. */
  function WordsFrom(st: Stream): seq<string>
    decreases |st.rest|
  {
    match ReadWord(st)
    case (_, None) => []
    case (st', Some(w)) => [w] + WordsFrom(st')
  }

  /**
    The characters of a number as num_get's second stage accumulates them: an optional sign,
    digits with at most one decimal point, and, once a digit has been seen, an exponent
    `e`/`E` with an optional sign and digits. Returns the number of characters taken and the
    value when they form a number (at least one mantissa digit, and exponent digits when
    there is an exponent).
  */
  function ScanReal(s: string): (r: (nat, Option<real>))
    ensures r.0 <= |s|
    ensures r.1.Some? ==> r.0 > 0
  {
    var i0 := if s != [] && IsSign(s[0]) then 1 else 0;
    var i1 := ScanDigits(s, i0);
    var dot := i1 < |s| && s[i1] == '.';
    var i2 := if dot then i1 + 1 else i1;
    var i3 := ScanDigits(s, i2);
    var mantissa := (i1 - i0) + (i3 - i2) > 0;
    var exp := mantissa && i3 < |s| && (s[i3] == 'e' || s[i3] == 'E');
    var i4 := if exp then i3 + 1 else i3;
    var i5 := if exp && i4 < |s| && IsSign(s[i4]) then i4 + 1 else i4;
    var i6 := if exp then ScanDigits(s, i5) else i5;
    if !mantissa || (exp && i6 == i5) then (i6, None)
    else
      var whole := DigitsValue(s[i0..i1]) as real;
      var frac := DigitsValue(s[i2..i3]) as real / Pow10(i3 - i2) as real;
      var e := if exp then DigitsValue(s[i5..i6]) else 0;
      var scale := Pow10Real(if exp && s[i4] == '-' then -e else e);
      var m := (whole + frac) * scale;
      (i6, Some(if i0 == 1 && s[0] == '-' then -m else m))
  }

  /** `iss >> key` into an empty string on a fresh line stream: the first word, or "" when the line is blank. */
  function Keyword(line: string): (r: (Stream, string))
    ensures r.1 != [] ==> ReadWord(Open(line)).1 == Some(r.1)
  {
    var (st, w) := ReadWord(Open(line));
    (st, if w.Some? then w.value else "")
  }

  /** `in >> f` for a `float f`. */
  function ReadReal(st: Stream): (r: (Stream, Extracted<real>))
    ensures !r.1.Got? ==> r.0.fail
    ensures r.1.Got? ==> st.Good() && !r.0.fail
    ensures st.fail ==> r.1.Untouched?
  {
    if !st.Good() then (st.(fail := true), Untouched)
    else
      var s := SkipSpaces(st.rest);
      if s == [] then (Stream([], true, true), Untouched)
      else
        var (n, v) := ScanReal(s);
        match v
        case Some(x) => (Stream(s[n..], n == |s|, false), Got(x))
        case None => (Stream(s[n..], n == |s|, true), Zeroed)
  }

  /** `in >> i` for an `int i`: an optional sign and decimal digits. */
  function ReadInt(st: Stream): (r: (Stream, Extracted<int>))
    ensures !r.1.Got? ==> r.0.fail
    ensures st.fail ==> r.1.Untouched?
  {
    if !st.Good() then (st.(fail := true), Untouched)
    else
      var s := SkipSpaces(st.rest);
      if s == [] then (Stream([], true, true), Untouched)
      else
        var i0 := if IsSign(s[0]) then 1 else 0;
        var i1 := ScanDigits(s, i0);
        if i1 == i0 then (Stream(s[i1..], i1 == |s|, true), Zeroed)
        else
          var m: int := DigitsValue(s[i0..i1]);
          (Stream(s[i1..], i1 == |s|, false), Got(if s[0] == '-' then -m else m))
  }

  /** The index of the first `delim` in `s`, or `|s|` when there is none. */
  function IndexOf(s: string, delim: char): (n: nat)
    ensures n <= |s|
    ensures n < |s| ==> s[n] == delim
    ensures forall i :: 0 <= i < n ==> s[i] != delim
  {
    if s == [] then 0 else if s[0] == delim then 0 else 1 + IndexOf(s[1..], delim)
  }

  /**
    `std::getline(in, str, delim)`. Only when the sentry succeeds is `str` erased before
    reading, so on a stream that already reached its end `str` keeps its old contents.
    Reading zero characters (neither a character nor the delimiter) sets failbit.
  */
  function Getline(st: Stream, str: string, delim: char): (r: (Stream, string))
    ensures !st.Good() ==> r == (st.(fail := true), str)
    ensures st.Good() ==> forall i :: 0 <= i < |r.1| ==> r.1[i] != delim
    ensures st.Good() && st.rest == [] ==> r.1 == [] && r.0.fail
    ensures st.Good() && st.rest != [] ==> !r.0.fail && |r.0.rest| < |st.rest|
  {
    if !st.Good() then (st.(fail := true), str)
    else if st.rest == [] then (Stream([], true, true), [])
    else
      var n := IndexOf(st.rest, delim);
      if n < |st.rest| then (Stream(st.rest[n + 1..], false, false), st.rest[..n])
      else (Stream([], true, false), st.rest)
  }

  /** The longest sign-and-digits prefix of `s` after white space, as `strtol` reads it. */
  function ScanInteger(s: string): (r: Option<int>)
  {
    var t := SkipSpaces(s);
    var i0 := if t != [] && IsSign(t[0]) then 1 else 0;
    var i1 := ScanDigits(t, i0);
    if i1 == i0 then None
    else
      var m: int := DigitsValue(t[i0..i1]);
      Some(if t[0] == '-' then -m else m)
  }

  const IntMin: int := -0x8000_0000
  const IntMax: int := 0x7FFF_FFFF
  /** 2^32: `unsigned long` is 32 bits wide on Windows. */
  const ULongModulus: int := 0x1_0000_0000

  /** `std::stoi(s)`. */
  function StoI(s: string): (r: Result<int>)
    ensures r.Ok? ==> IntMin <= r.value <= IntMax
    ensures r.Ok? <==> ScanInteger(s).Some? && IntMin <= ScanInteger(s).value <= IntMax
  {
    match ScanInteger(s)
    case None => Err(InvalidArgument("invalid stoi argument"))
    case Some(v) =>
      if v < IntMin || v > IntMax then Err(OutOfRange("stoi argument out of range")) else Ok(v)
  }

  /** `std::stoul(s)`: `strtoul` negates a `-` number modulo 2^32 and rejects magnitudes beyond 2^32 - 1. */
  function StoUL(s: string): (r: Result<int>)
    ensures r.Ok? ==> 0 <= r.value < ULongModulus
    ensures r.Ok? <==> ScanInteger(s).Some? && -ULongModulus < ScanInteger(s).value < ULongModulus
  {
    match ScanInteger(s)
    case None => Err(InvalidArgument("invalid stoul argument"))
    case Some(v) =>
      if v <= -ULongModulus || v >= ULongModulus then Err(OutOfRange("stoul argument out of range"))
      else Ok(if v < 0 then v + ULongModulus else v)
  }

  /** `std::to_string(n)` for an unsigned `n`: its decimal digits without leading zeros. */
  function NatToString(n: nat): (s: string)
    ensures s != []
    ensures forall i :: 0 <= i < |s| ==> IsDigit(s[i])
    decreases n
  {
    var last := ['0' + (n % 10) as char];
    if n < 10 then last else NatToString(n / 10) + last
  }

  /** Reading back the digits `std::to_string` writes gives the number again. */
  lemma {:induction false} DigitsValueOfNatToString(n: nat)
    ensures DigitsValue(NatToString(n)) == n
    decreases n
  {
    var s := NatToString(n);
    assert s[..|s| - 1] == if n < 10 then [] else NatToString(n / 10);
    if n >= 10 {
      DigitsValueOfNatToString(n / 10);
    }
  }

  /** A numeral with no sign and no white space scans as the number its digits denote. */
  lemma ScanIntegerOfDigits(s: string)
    requires s != [] && forall i :: 0 <= i < |s| ==> IsDigit(s[i])
    ensures ScanInteger(s) == Some(DigitsValue(s))
  {
    ScanIntegerOfDigitFirst(s);
    ScanDigitsAll(s, 0);
    assert s[..|s|] == s;
  }

  /** A string that starts with a digit scans as the number its leading digits denote. */
  lemma ScanIntegerOfDigitFirst(s: string)
    requires s != [] && IsDigit(s[0])
    ensures ScanInteger(s) == Some(DigitsValue(s[..ScanDigits(s, 0)]))
  {
    assert SkipSpaces(s) == s;
    assert s[0..ScanDigits(s, 0)] == s[..ScanDigits(s, 0)];
  }

  /** A string that starts with a character other than white space, a sign or a digit is no integer: `std::stoi` throws `invalid_argument`. */
  lemma StoIOfNonNumeric(s: string)
    requires s != [] && !IsSpace(s[0]) && !IsSign(s[0]) && !IsDigit(s[0])
    ensures StoI(s) == Err(InvalidArgument("invalid stoi argument"))
  {
    assert SkipSpaces(s) == s;
    assert ScanDigits(s, 0) == 0;
  }

  /** `std::stoi` of decimal digits within the `int` range gives the number they denote. */
  lemma StoIOfDigits(s: string)
    requires s != [] && forall i :: 0 <= i < |s| ==> IsDigit(s[i])
    requires DigitsValue(s) <= IntMax
    ensures StoI(s) == Ok(DigitsValue(s))
  {
    ScanIntegerOfDigits(s);
  }

  /** `std::stoi` of a decimal numeral within the `int` range gives that number. */
  lemma StoIOfNatToString(n: nat)
    requires n <= IntMax
    ensures StoI(NatToString(n)) == Ok(n)
  {
    ScanIntegerOfDigits(NatToString(n));
    DigitsValueOfNatToString(n);
  }

  /** `std::stoul` of a decimal numeral below 2^32 gives that number. */
  lemma StoULOfNatToString(n: nat)
    requires n < ULongModulus
    ensures StoUL(NatToString(n)) == Ok(n)
  {
    ScanIntegerOfDigits(NatToString(n));
    DigitsValueOfNatToString(n);
  }

  /** A numeral followed by white space or by nothing scans as a floating-point number: the number it denotes. */
  lemma ScanRealOfNatToString(n: nat, rest: string)
    requires rest == [] || IsSpace(rest[0])
    ensures ScanReal(NatToString(n) + rest) == (|NatToString(n)|, Some(n as real))
  {
    var ds := NatToString(n);
    var s := ds + rest;
    var j := |ds|;
    assert !IsSign(s[0]);
    ScanDigitsUpTo(s, 0, j);
    assert !(j < |s| && s[j] == '.');
    assert !(j < |s| && (s[j] == 'e' || s[j] == 'E'));
    assert s[0..j] == ds;
    DigitsValueOfNatToString(n);
    assert ScanDigits(s, j) == j;
    assert DigitsValue(s[j..j]) as real / Pow10(0) as real == 0.0;
    assert Pow10Real(0) == 1.0;
    assert (n as real + 0.0) * 1.0 == n as real;
  }

  /** `in >> f` on white space and a numeral reads the number the numeral denotes. */
  lemma ReadRealOfNumeral(st: Stream, n: nat, rest: string)
    requires st.Good() && st.rest == " " + NatToString(n) + rest
    requires rest == [] || IsSpace(rest[0])
    ensures ReadReal(st) == (Stream(rest, rest == [], false), Got(n as real))
  {
    var ds := NatToString(n);
    var t := ds + rest;
    SkipOneSpace(st.rest, t);
    ScanRealOfNatToString(n, rest);
    var k := |ds|;
    assert ScanReal(t) == (k, Some(n as real));
    assert t[k..] == rest && (k == |t| <==> rest == []);
  }

  /** Skipping white space drops one leading blank in front of a word. */
  lemma SkipOneSpace(s: string, t: string)
    requires s != [] && IsSpace(s[0]) && s[1..] == t
    requires t != [] && !IsSpace(t[0])
    ensures SkipSpaces(s) == t
  {
  }

  /** `in >> word` where the characters after the skipped white space are `w` and then white space or nothing. */
  lemma ReadWordAt(st: Stream, w: string, rest: string)
    requires st.Good() && SkipSpaces(st.rest) == w + rest
    requires w != [] && forall i :: 0 <= i < |w| ==> !IsSpace(w[i])
    requires rest == [] || IsSpace(rest[0])
    ensures ReadWord(st) == (Stream(rest, rest == [], false), Some(w))
  {
    var s := w + rest;
    WordLengthUpTo(s, |w|);
    assert s[..|w|] == w && s[|w|..] == rest;
  }

  /** The keyword of a line that starts with the word `w`, and the stream left after it. */
  lemma KeywordOf(w: string, rest: string)
    requires w != [] && forall i :: 0 <= i < |w| ==> !IsSpace(w[i])
    requires rest == [] || IsSpace(rest[0])
    ensures Keyword(w + rest) == (Stream(rest, rest == [], false), w)
  {
    assert SkipSpaces(w + rest) == w + rest by {
      assert (w + rest)[0] == w[0];
    }
    ReadWordAt(Open(w + rest), w, rest);
  }

  /** The words of a line whose rest is one blank and a word `w`, then white space or nothing. */
  lemma ReadWordAfterBlank(st: Stream, w: string, rest: string)
    requires st.Good() && st.rest == " " + w + rest
    requires w != [] && forall i :: 0 <= i < |w| ==> !IsSpace(w[i])
    requires rest == [] || IsSpace(rest[0])
    ensures ReadWord(st) == (Stream(rest, rest == [], false), Some(w))
  {
    assert (w + rest)[0] == w[0];
    SkipOneSpace(st.rest, w + rest);
    ReadWordAt(st, w, rest);
  }

  /** A run of `n` characters without white space, followed by white space or nothing, is the word `WordLength` measures. */
  lemma {:induction false} WordLengthUpTo(s: string, n: nat)
    requires n <= |s|
    requires forall k :: 0 <= k < n ==> !IsSpace(s[k])
    requires n == |s| || IsSpace(s[n])
    ensures WordLength(s) == n
    decreases n
  {
    if n > 0 {
      WordLengthUpTo(s[1..], n - 1);
    }
  }

  /** The digits of `s` from `i` end where a run of digits up to `j` is followed by something else. */
  lemma {:induction false} ScanDigitsUpTo(s: string, i: nat, j: nat)
    requires i <= j <= |s|
    requires forall k :: i <= k < j ==> IsDigit(s[k])
    requires j == |s| || !IsDigit(s[j])
    ensures ScanDigits(s, i) == j
    decreases j - i
  {
    if i < j {
      ScanDigitsUpTo(s, i + 1, j);
    }
  }

  lemma {:induction false} ScanDigitsAll(s: string, i: nat)
    requires i <= |s|
    requires forall k :: i <= k < |s| ==> IsDigit(s[k])
    ensures ScanDigits(s, i) == |s|
    decreases |s| - i
  {
    if i < |s| {
      ScanDigitsAll(s, i + 1);
    }
  }
}
