/**
  The Python library conversions this program relies on but does not define:
  float and Decimal text, ISO dates, base64, SHA-256. They are unknown
  functions about which only `Lawful` is known. Payload codes stand for the
  actual Python objects.
 */
module Host {
  import opened Wrappers
  import Numbers

  /** The scalar types that are stored under a type tag. */
  datatype Kind = DateTime | Date | Decimal | Bytes

  /** The Decimals that are no finite number. A signalling NaN cannot even be compared for equality. */
  datatype Special = PlusInfinite | MinusInfinite | QuietNan | SignallingNan

  datatype Functions = Functions(
    /** `repr(float)`, `float(text)` and `math.isfinite`; NaN and the infinities have codes too. */
    floatText: int -> string,
    floatOf: string -> int,
    isFinite: int -> bool,
    floatValue: int -> real,
    nan: int,
    infinity: int,
    minusInfinity: int,
    /** Text of a tagged scalar and its partial inverse. */
    text: (Kind, int) -> string,
    parse: (Kind, string) -> Option<int>,
    /** The code of an actual object; for a Decimal, of a finite one. */
    storable: (Kind, int) -> bool,
    hashable: (Kind, int) -> bool,
    /** Equal numbers for `Decimal`, equal classes for the other kinds. */
    decimalValue: int -> real,
    special: int -> Special,
    equalityClass: (Kind, int) -> int,
    /** `a < b` between two dates, datetimes or bytes; a TypeError with and without time zone. */
    less: (Kind, int, int) -> Option<bool>,
    bytesOf: int -> seq<int>,
    /** Hex digest of a text. */
    sha256: string -> string
  )

  ghost predicate Lawful(h: Functions) {
    && (forall f :: h.isFinite(f) ==> Numbers.IsFloatLiteral(h.floatText(f)) && h.floatOf(h.floatText(f)) == f)
    && (forall k, p :: h.storable(k, p) ==> h.parse(k, h.text(k, p)) == Some(p) && h.hashable(k, p))
    && (forall k: Kind, s :: k != Decimal && h.parse(k, s).Some? ==> h.storable(k, h.parse(k, s).value))
    && (forall p :: h.hashable(Decimal, p) <==> h.storable(Decimal, p) || h.special(p) != SignallingNan)
    && !h.isFinite(h.nan) && !h.isFinite(h.infinity) && !h.isFinite(h.minusInfinity)
    && h.nan != h.infinity && h.nan != h.minusInfinity && h.infinity != h.minusInfinity
  }

  type Platform = h: Functions | Lawful(h) witness Example()

  /** The platform the program runs on: any one that meets the laws. */
  const Py: Platform

  // ---------- The laws can be met ----------

  function ExampleFloatText(f: int): string {
    Numbers.IntText(f) + ".5"
  }

  function ExampleFloatOf(s: string): int {
    if |s| < 2 then 0 else Numbers.IntOf(s[..|s| - 2])
  }

  lemma FractionReads(n: nat)
    ensures var digits := Numbers.NatText(n); var t := digits + ".5";
      Numbers.IntLen(t) == |digits| && t[|digits|..] == ".5"
  {
    var digits := Numbers.NatText(n);
    Numbers.AllDigitsRun(digits);
    Numbers.DigitRunStops(digits, ".5");
  }

  lemma FractionLength()
    ensures Numbers.FracLen(".5") == 2
  {
    assert ".5"[1..] == "5" && "5"[1..] == "";
  }

  lemma ExampleFloatLaw(f: int)
    ensures Numbers.IsFloatLiteral(ExampleFloatText(f))
    ensures ExampleFloatOf(ExampleFloatText(f)) == f
  {
    var n := if f < 0 then -f else f;
    var s := ExampleFloatText(f);
    assert s[..|s| - 2] == Numbers.IntText(f);
    var t := s[Numbers.SignLen(s)..];
    assert t == Numbers.NatText(n) + ".5";
    FractionReads(n);
    FractionLength();
    assert ".5"[2..] == "";
  }

  predicate ExampleStores(k: Kind, p: int) {
    !(k == Decimal && p == 0)
  }

  /** On the example platform, too, there is a signalling NaN. */
  function ExampleParse(k: Kind, s: string): Option<int> {
    Some(if k == Decimal && s == "sNaN" then 0 else Numbers.IntOf(s))
  }

  lemma ExampleScalarLaw(k: Kind, p: int)
    ensures ExampleParse(k, Numbers.IntText(p)) == Some(p)
  {
    assert Numbers.IntText(p)[0] == '-' || Numbers.IsDigit(Numbers.IntText(p)[0]);
    assert "sNaN"[0] == 's';
  }

  lemma ExampleFloats()
    ensures forall f ::
      Numbers.IsFloatLiteral(ExampleFloatText(f)) && ExampleFloatOf(ExampleFloatText(f)) == f
  {
    forall f ensures Numbers.IsFloatLiteral(ExampleFloatText(f)) && ExampleFloatOf(ExampleFloatText(f)) == f {
      ExampleFloatLaw(f);
    }
  }

  lemma ExampleScalars()
    ensures forall k, p :: ExampleParse(k, Numbers.IntText(p)) == Some(p)
  {
    forall k, p ensures ExampleParse(k, Numbers.IntText(p)) == Some(p) {
      ExampleScalarLaw(k, p);
    }
  }

  function Example(): (h: Functions)
    ensures Lawful(h)
  {
    var h := Functions(
      ExampleFloatText, ExampleFloatOf, f => f > 2, f => f as real, 0, 1, 2,
      (k, p) => Numbers.IntText(p), ExampleParse, ExampleStores, ExampleStores,
      p => p as real, p => SignallingNan, (k, p) => p, (k, p, q) => Some(p < q), p => [], s => s);
    ExampleFloats();
    ExampleScalars();
    h
  }
}
