/**
 * The bodies of the public facade (ephem/body.go). A Body is a plain integer
 * in Go, so values outside the ten named constants exist; String has a
 * fallback for them.
 */
module EphemBody {

  type Body = int

  const Moon: Body := 0
  const Sun: Body := 1
  const Mercury: Body := 2
  const Venus: Body := 3
  const Mars: Body := 4
  const Jupiter: Body := 5
  const Saturn: Body := 6
  const Uranus: Body := 7
  const Neptune: Body := 8
  const Pluto: Body := 9

  /** The names, in the order of the constants. */
  const BodyNames: seq<string> := ["Moon", "Sun", "Mercury", "Venus", "Mars", "Jupiter", "Saturn", "Uranus", "Neptune", "Pluto"]

  /** The ten named bodies. */
  predicate IsNamed(b: Body) {
    0 <= b < |BodyNames|
  }

  lemma NamedBodies()
    ensures |BodyNames| == 10
    ensures forall b :: IsNamed(b) <==> Moon <= b <= Pluto
    ensures BodyNames[Moon] == "Moon" && BodyNames[Sun] == "Sun" && BodyNames[Pluto] == "Pluto"
  {
  }

  /** No two bodies share a name. */
  lemma NamesDistinct()
    ensures forall i, j :: 0 <= i < j < |BodyNames| ==> BodyNames[i] != BodyNames[j]
  {
  }

  /** The decimal digit for 0..9. */
  function Digit(d: int): (c: char)
    requires 0 <= d < 10
    ensures '0' <= c <= '9' && (c as int) - ('0' as int) == d
  {
    (('0' as int) + d) as char
  }

  /** The decimal representation of a natural number, as %d prints it. */
  function NatToString(n: nat): (s: string)
    ensures |s| >= 1
    ensures forall i :: 0 <= i < |s| ==> '0' <= s[i] <= '9'
  {
    if n < 10 then [Digit(n)] else NatToString(n / 10) + [Digit(n % 10)]
  }

  /** The value of a string of decimal digits. */
  function DecimalValue(s: string): nat
    requires forall i :: 0 <= i < |s| ==> '0' <= s[i] <= '9'
  {
    if |s| == 0 then 0 else DecimalValue(s[..|s| - 1]) * 10 + ((s[|s| - 1] as int) - ('0' as int))
  }

  /** Reading the digits back gives the number. */
  lemma {:induction false} NatToStringRoundTrip(n: nat)
    ensures DecimalValue(NatToString(n)) == n
  {
    if n >= 10 {
      NatToStringRoundTrip(n / 10);
      var s := NatToString(n);
      assert s[..|s| - 1] == NatToString(n / 10);
    }
  }

  /** %d of an integer: a minus sign before the digits of a negative one. */
  function IntToString(n: int): (s: string)
    ensures |s| >= 1
    ensures n >= 0 ==> s == NatToString(n)
    ensures n < 0 ==> s == "-" + NatToString(-n)
  {
    if n < 0 then "-" + NatToString(-n) else NatToString(n)
  }

  /** Body.String: the name of a named body, "Body(n)" for any other value. */
  function String(b: Body): (s: string)
    ensures IsNamed(b) ==> s == BodyNames[b]
    ensures !IsNamed(b) ==> |s| >= 6 && s[..5] == "Body(" && s[|s| - 1] == ')' && s[5..|s| - 1] == IntToString(b)
  {
    if b < 0 || b >= |BodyNames| then "Body(" + IntToString(b) + ")" else BodyNames[b]
  }

  /** No name starts with 'B'. */
  lemma NamesNotB()
    ensures forall i :: 0 <= i < |BodyNames| ==> |BodyNames[i]| > 0 && BodyNames[i][0] != 'B'
  {
  }

  /** String gives a body's name exactly for the ten named bodies: the fallback never collides with a name. */
  lemma StringIsName(b: Body)
    ensures String(b) in BodyNames <==> IsNamed(b)
  {
    if !IsNamed(b) {
      var s := String(b);
      assert s[..5] == "Body(";
      assert s[0] == 'B';
      NamesNotB();
    }
  }
}
