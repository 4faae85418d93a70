/** The headline revenue figure: a number is shown in billions, millions or
    thousands once it reaches that unit, and as itself below a thousand. */
module Display {
  datatype Unit = Billions | Millions | Thousands | Plain

  /** The value of one unit. */
  function Divisor(u: Unit): real {
    match u
    case Billions => 1000000000.0
    case Millions => 1000000.0
    case Thousands => 1000.0
    case Plain => 1.0
  }

  /** The suffix printed after the scaled value. */
  function Suffix(u: Unit): string {
    match u
    case Billions => " B"
    case Millions => " M"
    case Thousands => " K"
    case Plain => ""
  }

  /** The unit a number is shown in: the largest unit it reaches. */
  function UnitFor(n: real): (u: Unit)
    ensures n >= Divisor(u) || u == Plain
    ensures u != Billions ==> n < Divisor(Billions)
    ensures u == Plain || u == Thousands ==> n < Divisor(Millions)
    ensures u == Plain ==> n < Divisor(Thousands)
  {
    if n >= 1000000000.0 then Billions
    else if n >= 1000000.0 then Millions
    else if n >= 1000.0 then Thousands
    else Plain
  }

  /** The shown figure before rounding to two decimals, with its suffix. */
  datatype Shown = Shown(scaled: real, suffix: string)

  function FormatLarge(n: real): (s: Shown)
    ensures s.scaled * Divisor(UnitFor(n)) == n
    ensures s.suffix == Suffix(UnitFor(n))
  {
    var u := UnitFor(n);
    Shown(n / Divisor(u), Suffix(u))
  }

  /** The rank of a unit, smallest first. */
  function Level(u: Unit): nat {
    match u
    case Plain => 0
    case Thousands => 1
    case Millions => 2
    case Billions => 3
  }

  /** A larger number is never shown in a smaller unit. */
  lemma UnitMonotone(n: real, m: real)
    requires n <= m
    ensures Level(UnitFor(n)) <= Level(UnitFor(m))
  {
  }

  /** A figure shown in thousands or millions has one to three digits before
      the decimal point; one in billions is at least 1; a plain figure is
      below a thousand. */
  lemma ScaledRange(n: real)
    ensures var s := FormatLarge(n);
      && (UnitFor(n) == Plain ==> s.scaled == n && n < 1000.0)
      && (UnitFor(n) == Thousands || UnitFor(n) == Millions ==> 1.0 <= s.scaled < 1000.0)
      && (UnitFor(n) == Billions ==> 1.0 <= s.scaled)
  {
    var u := UnitFor(n);
    var s := FormatLarge(n);
    assert s.scaled * Divisor(u) == n;
  }
}
