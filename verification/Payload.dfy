/** The in-place passes over a vehicle payload (telemetry/record.go). */
module Payloads {
  import opened Wrappers

  datatype Key = LocationKey | AebKey | OtherKey(field: nat)

  /** `Other` stands for every value the passes do not look at. */
  datatype Value =
    | NoValue
    | StringValue(text: string)
    | LocationValue(latitude: real, longitude: real)
    | AebValue(n: int)
    | Other(tag: nat)

  datatype Datum = Datum(key: Key, value: Value)

  /** A finite float as its sign and magnitude. */
  datatype Float = Float(negative: bool, magnitude: real)

  /** The four conversions of the location format: two floats, each with its quadrant. */
  datatype Scan = Scan(latitude: real, latQ: char, longitude: real, lonQ: char)

  /**
   * What is not modelled of the Go library: how Sscanf reads the rest of a location after
   * the literal "(", and the finite value ParseFloat finds, if it finds one.
   */
  datatype Library = Library(scanLocation: string -> Option<Scan>, parseFloat: string -> Option<Float>)

  // ----- Location strings -----

  /** ParseLocation: the format starts with a literal parenthesis. */
  function ParseLocation(lib: Library, s: string): Option<Value> {
    if s == "" || s[0] != '(' then None
    else match lib.scanLocation(s[1..])
      case None => None
      case Some(r) =>
        if r.latQ !in "NS" || r.lonQ !in "EW" then None
        else Some(LocationValue(if r.latQ == 'S' then -r.latitude else r.latitude,
                                if r.lonQ == 'W' then -r.longitude else r.longitude))
  }

  // ----- Scientific notation -----

  predicate IsDigit(c: char) {
    '0' <= c <= '9'
  }

  /** How many digits a string starts with. */
  function DigitRun(s: string): (n: nat)
    ensures n <= |s|
  {
    if s != "" && IsDigit(s[0]) then 1 + DigitRun(s[1..]) else 0
  }

  lemma {:induction false} DigitRunIsDigits(s: string)
    ensures AllDigits(s[..DigitRun(s)])
  {
    if s != "" && IsDigit(s[0]) {
      DigitRunIsDigits(s[1..]);
      assert s[..DigitRun(s)] == [s[0]] + s[1..][..DigitRun(s[1..])];
    }
  }

  function Unsigned(s: string): string {
    if s != "" && (s[0] == '+' || s[0] == '-') then s[1..] else s
  }

  predicate IsExponent(s: string) {
    && s != "" && (s[0] == 'e' || s[0] == 'E')
    && var digits := Unsigned(s[1..]);
       digits != "" && DigitRun(digits) == |digits|
  }

  /** The regular expression of scientificNotationFloatRegex. */
  predicate IsScientific(s: string) {
    IsUnsignedScientific(Unsigned(s))
  }

  predicate IsUnsignedScientific(t: string) {
    var a := DigitRun(t);
    a < |t| && t[a] == '.' && EndsScientific(a, t[a + 1..])
  }

  /** The rest of a scientific number after `wholeDigits` digits and the point. */
  predicate EndsScientific(wholeDigits: nat, u: string) {
    var b := DigitRun(u);
    wholeDigits + b > 0 && IsExponent(u[b..])
  }

  function Digits(n: nat): string {
    if n < 10 then [DigitChar(n)] else Digits(n / 10) + [DigitChar(n % 10)]
  }

  function DigitChar(d: nat): (c: char)
    requires d < 10
    ensures IsDigit(c)
  {
    "0123456789"[d]
  }

  /** The last `places` digits of a number, with leading zeros. */
  function Padded(n: nat, places: nat): (s: string)
    ensures |s| == places
  {
    if places == 0 then "" else Padded(n / 10, places - 1) + [DigitChar(n % 10)]
  }

  /** Rounding to the nearest integer, halves to the even one. */
  function Round(x: real): nat
    requires x >= 0.0
  {
    var f := x.Floor;
    var rest := x - f as real;
    if rest < 0.5 || (rest == 0.5 && f % 2 == 0) then f else f + 1
  }

  function Abs(x: real): real {
    if x < 0.0 then -x else x
  }

  /** A number of hundred-thousandths with its point. */
  function Pointed(negative: bool, n: nat): string {
    (if negative then "-" else "") + Digits(n / 100000) + "." + Padded(n % 100000, 5)
  }

  /** Sprintf("%.5f", f). */
  function Fixed5(f: Float): string {
    Pointed(f.negative, Round(Abs(f.magnitude) * 100000.0))
  }

  // ----- The passes as functions -----

  function Relocated(lib: Library, d: Datum): Datum {
    if d.value.StringValue? && d.value.text != "" then
      match ParseLocation(lib, d.value.text)
      case Some(v) => d.(value := v)
      case None => d
    else d
  }

  /** Only the first location datum is looked at. */
  function LocationPass(lib: Library, data: seq<Datum>): seq<Datum> {
    if data == [] then []
    else if data[0].key == LocationKey then [Relocated(lib, data[0])] + data[1..]
    else [data[0]] + LocationPass(lib, data[1..])
  }

  function Unscientific(lib: Library, d: Datum): Datum {
    if d.value.StringValue? && d.value.text != "" && IsScientific(d.value.text) then
      match lib.parseFloat(d.value.text)
      case Some(f) => d.(value := StringValue(Fixed5(f)))
      case None => d
    else d
  }

  function ScientificPass(lib: Library, data: seq<Datum>): seq<Datum> {
    seq(|data|, i requires 0 <= i < |data| => Unscientific(lib, data[i]))
  }

  const LEGACY_CLIENT: string := "1.3.0"

  function Shifted(d: Datum): Datum {
    if d.key == AebKey && d.value.AebValue? && 0 <= d.value.n <= 4 then d.(value := AebValue((d.value.n + 1) % 5))
    else d
  }

  function AebPass(version: string, data: seq<Datum>): seq<Datum> {
    if version == LEGACY_CLIENT then seq(|data|, i requires 0 <= i < |data| => Shifted(data[i])) else data
  }

  // ----- The passes in place -----

  /** The value at `i` belongs to the first location datum. */
  ghost predicate IsTheLocation(data: seq<Datum>, i: nat)
    requires i < |data|
  {
    data[i].key == LocationKey && forall j :: 0 <= j < i ==> data[j].key != LocationKey
  }

  /** The value is a string that opens a parenthesis and scans with known quadrants. */
  predicate Scans(lib: Library, v: Value) {
    && v.StringValue? && v.text != "" && v.text[0] == '('
    && lib.scanLocation(v.text[1..]).Some?
    && lib.scanLocation(v.text[1..]).value.latQ in {'N', 'S'}
    && lib.scanLocation(v.text[1..]).value.lonQ in {'E', 'W'}
  }

  /** A location that scans becomes coordinates, positive to the north and to the east; any other stays itself. */
  ghost predicate Located(lib: Library, v: Value, v': Value) {
    if Scans(lib, v) then
      var scan := lib.scanLocation(v.text[1..]).value;
      && v'.LocationValue?
      && (scan.latQ == 'N' ==> v'.latitude == scan.latitude)
      && (scan.latQ == 'S' ==> v'.latitude == 0.0 - scan.latitude)
      && (scan.lonQ == 'E' ==> v'.longitude == scan.longitude)
      && (scan.lonQ == 'W' ==> v'.longitude == 0.0 - scan.longitude)
    else v' == v
  }

  lemma RelocatedIsLocated(lib: Library, d: Datum)
    ensures Located(lib, d.value, Relocated(lib, d).value) && Relocated(lib, d).key == d.key
  {
  }

  method TransformLocation(lib: Library, data: array<Datum>)
    modifies data
    ensures data[..] == LocationPass(lib, old(data[..]))
    // In the values' own terms:
    ensures forall i :: 0 <= i < data.Length && !IsTheLocation(old(data[..]), i) ==> data[i] == old(data[..])[i]
    ensures forall i :: 0 <= i < data.Length && IsTheLocation(old(data[..]), i) ==>
              data[i].key == LocationKey && Located(lib, old(data[..])[i].value, data[i].value)
  {
    ghost var was := data[..];
    var i := 0;
    while i < data.Length && data[i].key != LocationKey
      invariant 0 <= i <= data.Length && data[..] == was
      invariant forall j :: 0 <= j < i ==> was[j].key != LocationKey
    {
      i := i + 1;
    }
    if i < data.Length {
      RelocatedIsLocated(lib, data[i]);
      data[i] := Relocated(lib, data[i]);
    }
    LocationPassIs(lib, was, data[..]);
  }

  lemma ScientificPassAt(lib: Library, data: seq<Datum>, i: nat)
    requires i < |data|
    ensures ScientificPass(lib, data)[i] == Unscientific(lib, data[i])
  {
  }

  method TransformScientificNotation(lib: Library, data: array<Datum>)
    modifies data
    ensures data[..] == ScientificPass(lib, old(data[..]))
  {
    ghost var was := data[..];
    ghost var pass := ScientificPass(lib, was);
    var i := 0;
    while i < data.Length
      invariant 0 <= i <= data.Length
      invariant forall j :: 0 <= j < i ==> data[j] == pass[j]
      invariant forall j :: i <= j < data.Length ==> data[j] == was[j]
    {
      ScientificPassAt(lib, was, i);
      data[i] := Unscientific(lib, data[i]);
      i := i + 1;
    }
    assert data[..] == pass;
  }

  method TransformLegacyAutomaticEmergencyBraking(data: array<Datum>, version: string)
    modifies data
    ensures data[..] == AebPass(version, old(data[..]))
    // In the values' own terms:
    ensures forall i :: 0 <= i < data.Length ==>
              data[i] == if version == "1.3.0" && old(data[i]).key == AebKey && old(data[i]).value.AebValue?
                            && 0 <= old(data[i]).value.n <= 4
                         then Datum(AebKey, AebValue(if old(data[i]).value.n == 4 then 0 else old(data[i]).value.n + 1))
                         else old(data[i])
  {
    if version != LEGACY_CLIENT { return; }
    var i := 0;
    while i < data.Length
      invariant 0 <= i <= data.Length
      invariant forall j :: 0 <= j < data.Length ==> data[j] == if j < i then Shifted(old(data[j])) else old(data[j])
    {
      data[i] := Shifted(data[i]);
      i := i + 1;
    }
  }

  // ----- Syntactic shapes -----

  lemma DigitsAreDigits(n: nat)
    ensures |Digits(n)| > 0 && forall i :: 0 <= i < |Digits(n)| ==> IsDigit(Digits(n)[i])
  {
  }

  /**
   * The parts of a number in scientific notation: signed digits with a point, at least one
   * of them, a mark, and a signed run of digits.
   */
  ghost predicate IsNotation(s: string, sign: string, whole: string, decimals: string, mark: char, esign: string,
                             exponent: string)
  {
    && s == sign + (whole + ("." + (decimals + ([mark] + (esign + exponent)))))
    && sign in ["", "+", "-"] && esign in ["", "+", "-"] && mark in "eE"
    && AllDigits(whole) && AllDigits(decimals) && AllDigits(exponent)
    && whole + decimals != "" && exponent != ""
  }

  lemma {:induction false} RunOfDigits(s: string, rest: string)
    requires AllDigits(s) && (rest == "" || !IsDigit(rest[0]))
    ensures DigitRun(s + rest) == |s|
  {
    if s == "" {
      assert s + rest == rest;
    } else {
      assert (s + rest)[1..] == s[1..] + rest;
      RunOfDigits(s[1..], rest);
    }
  }

  lemma UnsignedIs(sign: string, rest: string)
    requires sign in ["", "+", "-"] && rest != "" && rest[0] != '+' && rest[0] != '-'
    ensures Unsigned(sign + rest) == rest
  {
    assert sign + rest == if sign == "" then rest else [sign[0]] + rest;
  }

  lemma EndIsScientific(wholeDigits: nat, decimals: string, power: string)
    requires AllDigits(decimals) && IsExponent(power) && wholeDigits + |decimals| > 0
    ensures EndsScientific(wholeDigits, decimals + power)
  {
    RunOfDigits(decimals, power);
    assert (decimals + power)[|decimals|..] == power;
  }

  lemma UnsignedIsScientific(whole: string, decimals: string, power: string)
    requires AllDigits(whole) && AllDigits(decimals) && IsExponent(power) && |whole| + |decimals| > 0
    ensures IsUnsignedScientific(whole + ("." + (decimals + power)))
  {
    RunOfDigits(whole, "." + (decimals + power));
    EndIsScientific(|whole|, decimals, power);
    AtPoint(whole, decimals + power);
  }

  lemma AtPoint(whole: string, u: string)
    ensures (whole + ("." + u))[|whole|] == '.' && (whole + ("." + u))[|whole| + 1..] == u
  {
  }

  lemma NotationIsScientific(s: string, sign: string, whole: string, decimals: string, mark: char, esign: string,
                             exponent: string)
    requires IsNotation(s, sign, whole, decimals, mark, esign, exponent)
    ensures IsScientific(s)
  {
    var power := [mark] + (esign + exponent);
    PowerIsExponent(mark, esign, exponent);
    SignedIsScientific(sign, whole, decimals, power);
  }

  lemma SignedIsScientific(sign: string, whole: string, decimals: string, power: string)
    requires sign in ["", "+", "-"] && AllDigits(whole) && AllDigits(decimals) && |whole| + |decimals| > 0
    requires IsExponent(power)
    ensures IsScientific(sign + (whole + ("." + (decimals + power))))
  {
    UnsignedIsScientific(whole, decimals, power);
    NoSign(whole, "." + (decimals + power));
    UnsignedIs(sign, whole + ("." + (decimals + power)));
  }

  lemma NoSign(whole: string, rest: string)
    requires AllDigits(whole) && rest != "" && rest[0] == '.'
    ensures (whole + rest)[0] != '+' && (whole + rest)[0] != '-'
  {
  }

  lemma PowerIsExponent(mark: char, esign: string, exponent: string)
    requires mark in "eE" && esign in ["", "+", "-"] && AllDigits(exponent) && exponent != ""
    ensures IsExponent([mark] + (esign + exponent))
  {
    var power := [mark] + (esign + exponent);
    assert power[1..] == esign + exponent;
    UnsignedIs(esign, exponent);
    RunOfDigits(exponent, "");
    assert exponent + "" == exponent;
  }

  lemma SignParts(s: string) returns (sign: string)
    requires Unsigned(s) != ""
    ensures s == sign + Unsigned(s) && sign in ["", "+", "-"]
  {
    if s[0] == '+' {
      sign := "+";
    } else if s[0] == '-' {
      sign := "-";
    } else {
      sign := "";
    }
    assert s == sign + Unsigned(s);
  }

  /** The exponent of a scientific number in its parts. */
  lemma ExponentParts(s: string) returns (esign: string, exponent: string)
    requires IsExponent(s)
    ensures s == [s[0]] + (esign + exponent) && s[0] in "eE"
    ensures esign in ["", "+", "-"] && AllDigits(exponent) && exponent != ""
  {
    exponent := Unsigned(s[1..]);
    esign := SignParts(s[1..]);
    DigitRunIsDigits(exponent);
    assert exponent[..|exponent|] == exponent;
    assert s == [s[0]] + s[1..];
  }

  lemma EndParts(wholeDigits: nat, u: string) returns (decimals: string, power: string)
    requires EndsScientific(wholeDigits, u)
    ensures u == decimals + power && AllDigits(decimals) && IsExponent(power) && wholeDigits + |decimals| > 0
  {
    var b := DigitRun(u);
    DigitRunIsDigits(u);
    decimals, power := u[..b], u[b..];
  }

  lemma SplitAt(t: string, a: nat)
    requires a < |t| && t[a] == '.'
    ensures t == t[..a] + ("." + t[a + 1..])
  {
  }

  lemma WholeParts(t: string) returns (whole: string, u: string)
    requires IsUnsignedScientific(t)
    ensures t == whole + ("." + u) && AllDigits(whole) && EndsScientific(|whole|, u)
  {
    var a := DigitRun(t);
    DigitRunIsDigits(t);
    whole, u := t[..a], t[a + 1..];
    SplitAt(t, a);
  }

  lemma ScientificParts(s: string)
    requires IsScientific(s)
    ensures exists sign, whole, decimals, mark, esign, exponent ::
              IsNotation(s, sign, whole, decimals, mark, esign, exponent)
  {
    var whole, u := WholeParts(Unsigned(s));
    var decimals, power := EndParts(|whole|, u);
    var sign := SignParts(s);
    var esign, exponent := ExponentParts(power);
    NonEmpty(whole, decimals);
    assert IsNotation(s, sign, whole, decimals, power[0], esign, exponent);
  }

  lemma NonEmpty(a: string, b: string)
    requires |a| + |b| > 0
    ensures a + b != ""
  {
    assert |a + b| > 0;
  }

  /** The test of the scientific pass accepts exactly the numbers in scientific notation. */
  lemma ScientificIsNotation(s: string)
    ensures IsScientific(s) <==>
            exists sign, whole, decimals, mark, esign, exponent ::
              IsNotation(s, sign, whole, decimals, mark, esign, exponent)
  {
    if IsScientific(s) { ScientificParts(s); }
    if sign, whole, decimals, mark, esign, exponent :| IsNotation(s, sign, whole, decimals, mark, esign, exponent) {
      NotationIsScientific(s, sign, whole, decimals, mark, esign, exponent);
    }
  }

  /** A scientific number has an exponent letter and does not start with a parenthesis. */
  lemma ScientificShape(s: string)
    requires IsScientific(s)
    ensures s != "" && s[0] != '('
    ensures 'e' in s || 'E' in s
  {
    var t := Unsigned(s);
    var a := DigitRun(t);
    var b := DigitRun(t[a + 1..]);
    var i := a + 1 + b + (|s| - |t|);
    assert t[a + 1..][b..][0] == t[a + 1 + b] == s[i];
  }

  /** Digits, signs and points only. */
  ghost predicate Plain(s: string) {
    forall c :: c in s ==> IsDigit(c) || c == '-' || c == '.'
  }

  lemma DigitsArePlain(n: nat)
    ensures Plain(Digits(n)) && Digits(n) != "" && Digits(n)[0] != '('
  {
    DigitsAreDigits(n);
  }

  /** A rendered float has neither. */
  lemma RenderedShape(f: Float)
    ensures Plain(Fixed5(f)) && Fixed5(f) != "" && Fixed5(f)[0] != '('
  {
    PointedShape(f.negative, Round(Abs(f.magnitude) * 100000.0));
  }

  lemma PointedShape(negative: bool, n: nat)
    ensures Plain(Pointed(negative, n)) && Pointed(negative, n) != "" && Pointed(negative, n)[0] != '('
  {
    DigitsArePlain(n / 100000);
    PaddedIsPlain(n % 100000, 5);
    JoinedArePlain(if negative then "-" else "", Digits(n / 100000), Padded(n % 100000, 5));
  }

  lemma PaddedIsPlain(n: nat, places: nat)
    ensures Plain(Padded(n, places))
  {
  }

  lemma JoinedArePlain(sign: string, whole: string, rest: string)
    requires (sign == "-" || sign == "") && Plain(whole) && Plain(rest) && whole != "" && whole[0] != '('
    ensures Plain(sign + whole + "." + rest) && (sign + whole + "." + rest)[0] != '('
  {
  }

  predicate AllDigits(s: string) {
    forall i :: 0 <= i < |s| ==> IsDigit(s[i])
  }

  /** The number a string of digits stands for. */
  function Decimal(s: string): nat
    requires AllDigits(s)
  {
    if s == "" then 0 else 10 * Decimal(s[..|s| - 1]) + (s[|s| - 1] as int - '0' as int)
  }

  lemma {:induction false} DecimalOneMore(s: string, d: nat)
    requires AllDigits(s) && d < 10
    ensures AllDigits(s + [DigitChar(d)]) && Decimal(s + [DigitChar(d)]) == 10 * Decimal(s) + d
  {
    assert (s + [DigitChar(d)])[..|s|] == s;
  }

  lemma {:induction false} DigitsRead(n: nat)
    ensures AllDigits(Digits(n)) && Decimal(Digits(n)) == n
  {
    if n < 10 {
      DecimalOneMore("", n);
      assert "" + [DigitChar(n)] == [DigitChar(n)];
    } else {
      DigitsRead(n / 10);
      DecimalOneMore(Digits(n / 10), n % 10);
    }
  }

  function PowerOfTen(k: nat): nat {
    if k == 0 then 1 else 10 * PowerOfTen(k - 1)
  }

  lemma {:induction false} PaddedRead(n: nat, places: nat)
    requires n < PowerOfTen(places)
    ensures AllDigits(Padded(n, places)) && Decimal(Padded(n, places)) == n
  {
    if places > 0 {
      PaddedRead(n / 10, places - 1);
      DecimalOneMore(Padded(n / 10, places - 1), n % 10);
    }
  }

  lemma {:induction false} FiveZeros()
    ensures PowerOfTen(5) == 100000
  {
    assert PowerOfTen(2) == 100;
    assert PowerOfTen(4) == 10000;
  }

  lemma RoundIsNearest(x: real)
    requires x >= 0.0
    ensures -0.5 <= Round(x) as real - x <= 0.5
    ensures Round(x) as real - x == 0.5 || Round(x) as real - x == -0.5 ==> Round(x) % 2 == 0
  {
  }

  lemma {:induction false} PointedReads(negative: bool, n: nat) returns (whole: string, decimals: string)
    ensures Pointed(negative, n) == (if negative then "-" else "") + whole + "." + decimals
    ensures whole != "" && |decimals| == 5 && AllDigits(whole) && AllDigits(decimals)
    ensures Decimal(whole) * 100000 + Decimal(decimals) == n
  {
    whole, decimals := Digits(n / 100000), Padded(n % 100000, 5);
    DigitsAreDigits(n / 100000);
    DigitsRead(n / 100000);
    FiveZeros();
    PaddedRead(n % 100000, 5);
  }

  /** A rendering has five decimals and reads back as the magnitude to within half a unit of the last one. */
  lemma {:induction false} RenderedIsClose(f: Float) returns (whole: string, decimals: string)
    ensures Fixed5(f) == (if f.negative then "-" else "") + whole + "." + decimals
    ensures whole != "" && |decimals| == 5 && AllDigits(whole) && AllDigits(decimals)
    ensures
      var n := Decimal(whole) * 100000 + Decimal(decimals);
      -0.5 <= n as real - Abs(f.magnitude) * 100000.0 <= 0.5
  {
    var x := Abs(f.magnitude) * 100000.0;
    whole, decimals := PointedReads(f.negative, Round(x));
    RoundIsNearest(x);
  }

  lemma {:induction false} RenderedIsNotScientific(f: Float)
    ensures !IsScientific(Fixed5(f))
  {
    RenderedShape(f);
    PlainIsNotScientific(Fixed5(f));
  }

  lemma PlainIsNotScientific(s: string)
    requires Plain(s)
    ensures !IsScientific(s)
  {
    if IsScientific(s) { ScientificShape(s); }
  }

  // ----- What each pass touches -----

  /** The first location datum. */
  predicate FirstLocation(data: seq<Datum>, i: int) {
    0 <= i < |data| && data[i].key == LocationKey && forall j :: 0 <= j < i ==> data[j].key != LocationKey
  }

  lemma {:induction false} LocationPassAt(lib: Library, data: seq<Datum>, i: nat)
    requires i < |data|
    ensures |LocationPass(lib, data)| == |data|
    ensures LocationPass(lib, data)[i] == if FirstLocation(data, i) then Relocated(lib, data[i]) else data[i]
  {
    if data[0].key != LocationKey && |data| > 1 {
      LocationPassAt(lib, data[1..], if i == 0 then 0 else i - 1);
      if i > 0 {
        assert FirstLocation(data, i) <==> FirstLocation(data[1..], i - 1) by {
          assert forall j :: 0 < j < i ==> data[1..][j - 1] == data[j];
        }
      }
    }
  }

  /** Pointwise, the location pass is the only sequence of its kind. */
  lemma LocationPassIs(lib: Library, data: seq<Datum>, data': seq<Datum>)
    requires |data'| == |data|
    requires forall i :: 0 <= i < |data| ==>
               data'[i] == if FirstLocation(data, i) then Relocated(lib, data[i]) else data[i]
    ensures data' == LocationPass(lib, data)
  {
    LocationPassLength(lib, data);
    forall i | 0 <= i < |data| ensures data'[i] == LocationPass(lib, data)[i] {
      LocationPassAt(lib, data, i);
    }
  }

  lemma LocationPassLength(lib: Library, data: seq<Datum>)
    ensures |LocationPass(lib, data)| == |data|
  {
    if data != [] { LocationPassAt(lib, data, 0); }
  }

  /** Same number of data with the same keys in the same order. */
  ghost predicate SameKeys(a: seq<Datum>, b: seq<Datum>) {
    |a| == |b| && forall i :: 0 <= i < |a| ==> a[i].key == b[i].key
  }

  lemma SameKeysSameFirst(a: seq<Datum>, b: seq<Datum>, i: nat)
    requires SameKeys(a, b)
    ensures FirstLocation(a, i) <==> FirstLocation(b, i)
  {
  }

  /**
   * Every pass keeps count, order and keys, and changes only its targets: one location
   * string, scientific strings, and legacy braking values.
   */
  lemma {:induction false} PassesTouchOnlyTheirTargets(lib: Library, version: string, data: seq<Datum>)
    ensures SameKeys(data, LocationPass(lib, data))
    ensures SameKeys(data, ScientificPass(lib, data))
    ensures SameKeys(data, AebPass(version, data))
    ensures forall i :: 0 <= i < |data| && LocationPass(lib, data)[i] != data[i] ==>
              FirstLocation(data, i) && data[i].value.StringValue? && ParseLocation(lib, data[i].value.text).Some?
    ensures forall i :: 0 <= i < |data| && ScientificPass(lib, data)[i] != data[i] ==>
              data[i].value.StringValue? && IsScientific(data[i].value.text)
    ensures forall i :: 0 <= i < |data| && AebPass(version, data)[i] != data[i] ==>
              version == LEGACY_CLIENT && data[i].key == AebKey && data[i].value.AebValue? && 0 <= data[i].value.n <= 4
  {
    LocationPassLength(lib, data);
    forall i | 0 <= i < |data|
      ensures LocationPass(lib, data)[i] == if FirstLocation(data, i) then Relocated(lib, data[i]) else data[i]
    {
      LocationPassAt(lib, data, i);
    }
  }

  /** What the three passes together make of one value; `first` says whether it is the first location. */
  ghost predicate Passed(lib: Library, version: string, d: Datum, first: bool, v': Value) {
    if first && Scans(lib, d.value) then Located(lib, d.value, v')
    else if d.value.StringValue? && IsScientific(d.value.text) && lib.parseFloat(d.value.text).Some? then
      v' == StringValue(Fixed5(lib.parseFloat(d.value.text).value))
    else if version == "1.3.0" && d.key == AebKey && d.value.AebValue? && 0 <= d.value.n <= 4 then
      v' == AebValue(if d.value.n == 4 then 0 else d.value.n + 1)
    else v' == d.value
  }

  /** One datum on its way through the three passes. */
  function Through(lib: Library, version: string, d: Datum, first: bool): Datum {
    var located := if first then Relocated(lib, d) else d;
    var rendered := Unscientific(lib, located);
    if version == LEGACY_CLIENT then Shifted(rendered) else rendered
  }

  /** The text the scientific pass puts in the place of another, if any. */
  function Rewritten(lib: Library, v: Value): Option<string> {
    if v.StringValue? && v.text != "" && IsScientific(v.text) && lib.parseFloat(v.text).Some? then
      Some(Fixed5(lib.parseFloat(v.text).value))
    else None
  }

  lemma UnscientificIs(lib: Library, d: Datum, rewritten: Option<string>)
    requires rewritten == Rewritten(lib, d.value)
    ensures Unscientific(lib, d) == if rewritten.Some? then d.(value := StringValue(rewritten.value)) else d
    ensures rewritten.Some? ==> d.value.StringValue?
  {
  }

  lemma RewrittenIs(lib: Library, v: Value)
    ensures Rewritten(lib, v) ==
            if v.StringValue? && IsScientific(v.text) && lib.parseFloat(v.text).Some? then
              Some(Fixed5(lib.parseFloat(v.text).value))
            else None
  {
    if v.StringValue? && IsScientific(v.text) { ScientificShape(v.text); }
  }

  /** The three passes on one datum, given what the first two make of it. */
  lemma ThreeCases(version: string, d: Datum, located: Datum, rewritten: Option<string>, rendered: Datum)
    requires located == d || (located.key == d.key && d.value.StringValue? && located.value.LocationValue?)
    requires rewritten.Some? ==> located.value.StringValue?
    requires rendered == if rewritten.Some? then located.(value := StringValue(rewritten.value)) else located
    ensures
      var out := if version == LEGACY_CLIENT then Shifted(rendered) else rendered;
      && out.key == d.key
      && out.value ==
         if located != d then located.value
         else if rewritten.Some? then StringValue(rewritten.value)
         else if version == "1.3.0" && d.key == AebKey && d.value.AebValue? && 0 <= d.value.n <= 4 then
           AebValue(if d.value.n == 4 then 0 else d.value.n + 1)
         else d.value
  {
  }

  lemma ThroughIs(lib: Library, version: string, d: Datum, first: bool)
    ensures
      var d' := Through(lib, version, d, first);
      d'.key == d.key && Passed(lib, version, d, first, d'.value)
  {
    var located := if first then Relocated(lib, d) else d;
    var rewritten := Rewritten(lib, located.value);
    RelocatedIsLocated(lib, d);
    UnscientificIs(lib, located, rewritten);
    RewrittenIs(lib, d.value);
    ThreeCases(version, d, located, rewritten, Unscientific(lib, located));
  }

  /** The passes keep every datum in its place under its key, and change one kind of value each. */
  lemma PassesTogether(lib: Library, version: string, data: seq<Datum>, i: nat)
    requires i < |data|
    ensures
      var data' := AebPass(version, ScientificPass(lib, LocationPass(lib, data)));
      && |data'| == |data|
      && data'[i].key == data[i].key
      && Passed(lib, version, data[i], IsTheLocation(data, i), data'[i].value)
  {
    var data' := AebPass(version, ScientificPass(lib, LocationPass(lib, data)));
    LocationPassAt(lib, data, i);
    ThroughIs(lib, version, data[i], IsTheLocation(data, i));
    assert FirstLocation(data, i) <==> IsTheLocation(data, i);
    assert data'[i] == Through(lib, version, data[i], IsTheLocation(data, i));
  }

  // ----- The passes do not interfere -----

  lemma {:induction false} DatumCommutes(lib: Library, d: Datum)
    ensures Relocated(lib, Unscientific(lib, d)) == Unscientific(lib, Relocated(lib, d))
  {
    if d.value.StringValue? && IsScientific(d.value.text) {
      ScientificShape(d.value.text);
      if lib.parseFloat(d.value.text).Some? { RenderedShape(lib.parseFloat(d.value.text).value); }
    }
  }

  lemma LocationAndScientificCommute(lib: Library, data: seq<Datum>)
    ensures LocationPass(lib, ScientificPass(lib, data)) == ScientificPass(lib, LocationPass(lib, data))
  {
    var sci, loc := ScientificPass(lib, data), LocationPass(lib, data);
    LocationPassLength(lib, data);
    LocationPassLength(lib, sci);
    forall i | 0 <= i < |data| ensures LocationPass(lib, sci)[i] == ScientificPass(lib, loc)[i] {
      LocationPassAt(lib, data, i);
      LocationPassAt(lib, sci, i);
      DatumCommutes(lib, data[i]);
      SameKeysSameFirst(sci, data, i);
    }
  }

  lemma LocationAndAebCommute(lib: Library, version: string, data: seq<Datum>)
    ensures LocationPass(lib, AebPass(version, data)) == AebPass(version, LocationPass(lib, data))
  {
    var aeb, loc := AebPass(version, data), LocationPass(lib, data);
    LocationPassLength(lib, data);
    LocationPassLength(lib, aeb);
    forall i | 0 <= i < |data| ensures LocationPass(lib, aeb)[i] == AebPass(version, loc)[i] {
      LocationPassAt(lib, data, i);
      LocationPassAt(lib, aeb, i);
      SameKeysSameFirst(aeb, data, i);
    }
  }

  lemma ScientificAndAebCommute(lib: Library, version: string, data: seq<Datum>)
    ensures ScientificPass(lib, AebPass(version, data)) == AebPass(version, ScientificPass(lib, data))
  {
  }

  lemma LocationIdempotent(lib: Library, data: seq<Datum>)
    ensures LocationPass(lib, LocationPass(lib, data)) == LocationPass(lib, data)
  {
    var loc := LocationPass(lib, data);
    LocationPassLength(lib, data);
    LocationPassLength(lib, loc);
    forall i | 0 <= i < |data| ensures LocationPass(lib, loc)[i] == loc[i] {
      LocationPassAt(lib, data, i);
      LocationPassAt(lib, loc, i);
    }
  }

  lemma {:induction false} ScientificIdempotent(lib: Library, data: seq<Datum>)
    ensures ScientificPass(lib, ScientificPass(lib, data)) == ScientificPass(lib, data)
  {
    forall i | 0 <= i < |data|
      ensures Unscientific(lib, Unscientific(lib, data[i])) == Unscientific(lib, data[i])
    {
      var d := data[i];
      if d.value.StringValue? && IsScientific(d.value.text) && lib.parseFloat(d.value.text).Some? {
        RenderedIsNotScientific(lib.parseFloat(d.value.text).value);
      }
    }
  }

  function Shifts(version: string, data: seq<Datum>, n: nat): seq<Datum> {
    if n == 0 then data else AebPass(version, Shifts(version, data, n - 1))
  }

  lemma {:induction false} ShiftsAt(version: string, data: seq<Datum>, n: nat, i: nat)
    requires i < |data|
    ensures |Shifts(version, data, n)| == |data|
    ensures Shifts(version, data, n)[i] == if version == LEGACY_CLIENT then ShiftedBy(data[i], n) else data[i]
  {
    if n > 0 {
      ShiftsAt(version, data, n - 1, i);
      ShiftedOnce(data[i], n - 1);
    }
  }

  lemma ShiftedOnce(d: Datum, n: nat)
    ensures Shifted(ShiftedBy(d, n)) == ShiftedBy(d, n + 1)
  {
  }

  lemma {:induction false} ShiftsLength(version: string, data: seq<Datum>, n: nat)
    ensures |Shifts(version, data, n)| == |data|
  {
    if n > 0 { ShiftsLength(version, data, n - 1); }
  }

  function ShiftedBy(d: Datum, n: nat): Datum {
    if d.key == AebKey && d.value.AebValue? && 0 <= d.value.n <= 4 then d.(value := AebValue((d.value.n + n) % 5))
    else d
  }

  /** The shift is a permutation of order five. */
  lemma FiveShiftsAreIdentity(version: string, data: seq<Datum>)
    ensures Shifts(version, data, 5) == data
  {
    ShiftsLength(version, data, 5);
    forall i | 0 <= i < |data| ensures Shifts(version, data, 5)[i] == data[i] {
      ShiftsAt(version, data, 5, i);
    }
  }
}
