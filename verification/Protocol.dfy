/**
 * The line protocol spoken between the clients and the server: the message
 * prefixes, Java's `Integer.parseInt` as both sides apply it to the text after
 * `MOVE:`, and the decimal rendering the client uses when it builds `"MOVE:" + index`.
 */
module Protocol {
  import opened Results
  import opened Rules

  const MovePrefix: string := "MOVE:"
  const MarkPrefix: string := "MARK:"
  const TurnLine: string := "TURN"
  const PlayerIdPrefix: string := "PLAYER_ID:"

  /** The range of a Java `int`. */
  const IntMin: int := -0x8000_0000
  const IntMax: int := 0x7fff_ffff

  /** What one `readLine` call yields: a line, end of stream (null), or an IOException. */
  datatype Inbound = Line(text: string) | EndOfStream | ReadError

  /** Java's `s.startsWith(prefix)`. */
  predicate StartsWith(s: string, prefix: string) {
    |prefix| <= |s| && s[..|prefix|] == prefix
  }

  predicate IsDigit(c: char) {
    '0' <= c <= '9'
  }

  predicate AllDigits(s: string) {
    forall i :: 0 <= i < |s| ==> IsDigit(s[i])
  }

  /** Text `parseInt` accepts syntactically: an optional sign followed by at least one digit. */
  predicate Numeral(s: string) {
    && |s| > 0
    && (if s[0] == '-' || s[0] == '+' then |s| > 1 && AllDigits(s[1..]) else AllDigits(s))
  }

  function DigitValue(c: char): nat
    requires IsDigit(c)
  {
    (c as int) - ('0' as int)
  }

  /** The value of a digit string read left to right (leading zeros allowed). */
  function DigitsValue(ds: string): nat
    requires AllDigits(ds)
  {
    if |ds| == 0 then 0 else DigitsValue(ds[..|ds| - 1]) * 10 + DigitValue(ds[|ds| - 1])
  }

  /** The value a numeral denotes: its digits read in decimal, negated after a '-'. */
  function SignedValue(s: string): int
    requires Numeral(s)
  {
    match s[0]
    case '-' => 0 - DigitsValue(s[1..]) as int
    case '+' => DigitsValue(s[1..])
    case _ => DigitsValue(s)
  }

  /**
   * Java's `Integer.parseInt(s)`: a leading character below '0' must be '-' or '+'
   * and cannot stand alone, the rest must be digits, and the value must fit an `int`;
   * anything else throws NumberFormatException (here: None).
   */
  function ParseInt(s: string): (r: Option<int>)
    ensures r.Some? ==> IntMin <= r.value <= IntMax
    ensures r.Some? ==> Numeral(s)
    ensures r.Some? && s[0] != '-' ==> r.value >= 0
    ensures Numeral(s) ==> (r.Some? <==> IntMin <= SignedValue(s) <= IntMax)
    ensures r.Some? ==> r.value == SignedValue(s)
  {
    if |s| == 0 then None
    else
      var signed := s[0] < '0';
      if signed && s[0] != '-' && s[0] != '+' then None
      else
        var digits := if signed then s[1..] else s;
        if |digits| == 0 || !AllDigits(digits) then None
        else
          var n: int := if s[0] == '-' then 0 - DigitsValue(digits) as int else DigitsValue(digits);
          if IntMin <= n <= IntMax then Some(n) else None
  }

  function DigitChar(d: nat): (c: char)
    requires d < 10
  {
    ('0' as int + d) as char
  }

  /** Decimal digits of a natural number, no leading zeros. */
  function Decimal(n: nat): string
    decreases n
  {
    if n < 10 then [DigitChar(n)] else Decimal(n / 10) + [DigitChar(n % 10)]
  }

  /** Java's `String.valueOf(int)`, as used by `"MOVE:" + index`. */
  function IntToString(n: int): string {
    if n < 0 then "-" + Decimal(-n) else Decimal(n)
  }

  /** Reading back the digits of `Decimal(n)` gives `n`. */
  lemma {:induction false} DecimalRoundTrip(n: nat)
    ensures |Decimal(n)| > 0 && AllDigits(Decimal(n))
    ensures DigitsValue(Decimal(n)) == n
    decreases n
  {
    var d := Decimal(n);
    if n < 10 {
      assert d[..|d| - 1] == [];
    } else {
      DecimalRoundTrip(n / 10);
      assert d[..|d| - 1] == Decimal(n / 10);
      assert d[|d| - 1] == DigitChar(n % 10);
    }
  }

  /** `parseInt` inverts Java's decimal rendering on every `int`. */
  lemma ParseIntRoundTrip(n: int)
    requires IntMin <= n <= IntMax
    ensures ParseInt(IntToString(n)) == Some(n)
  {
    var s := IntToString(n);
    if n < 0 {
      DecimalRoundTrip(-n);
      assert s[1..] == Decimal(-n);
    } else {
      DecimalRoundTrip(n);
    }
  }

  /** Why a `MOVE:` payload could not be used as a cell number. */
  datatype IndexError =
    | NotANumber              // NumberFormatException from parseInt
    | OutOfBounds(value: int) // ArrayIndexOutOfBoundsException on board[index]

  /** `Integer.parseInt(payload)` followed by the array access `board[index]`. */
  function ParseIndex(payload: string): (r: Result<Index, IndexError>)
    ensures r.Ok? ==> ParseInt(payload) == Some(r.value as int)
    ensures r == Err(NotANumber) <==> ParseInt(payload).None?
    ensures r.Err? && r.error.OutOfBounds? ==> ParseInt(payload) == Some(r.error.value)
    ensures r.Err? && r.error.OutOfBounds? ==> r.error.value < 0 || r.error.value >= 9
  {
    match ParseInt(payload)
    case None => Err(NotANumber)
    case Some(n) => if 0 <= n < 9 then Ok(n) else Err(OutOfBounds(n))
  }

  /** The text after a five-character prefix (`line.substring(5)`). */
  function Payload(line: string): string
    requires |line| >= 5
  {
    line[5..]
  }

  /** The line a client sends for a click on cell `i`: `"MOVE:" + i`. */
  function MoveLine(i: Index): string {
    MovePrefix + IntToString(i)
  }

  /** The line a client sends on connecting. */
  function PlayerIdLine(playerId: string): string {
    PlayerIdPrefix + playerId
  }

  /** A move line is recognised as a move, and its payload parses back to the cell number. */
  lemma MoveLineRoundTrip(i: Index)
    ensures StartsWith(MoveLine(i), MovePrefix)
    ensures !StartsWith(MoveLine(i), MarkPrefix) && MoveLine(i) != TurnLine
    ensures ParseIndex(Payload(MoveLine(i))) == Ok(i)
  {
    var line := MoveLine(i);
    assert line[..5] == MovePrefix;
    assert line[0] == 'M' && line[1] == 'O';
    assert Payload(line) == IntToString(i);
    ParseIntRoundTrip(i);
  }

  /** A player-identity line is neither a move, a mark assignment nor a turn grant. */
  lemma PlayerIdLineIsInert(playerId: string)
    ensures !StartsWith(PlayerIdLine(playerId), MovePrefix)
    ensures !StartsWith(PlayerIdLine(playerId), MarkPrefix)
    ensures PlayerIdLine(playerId) != TurnLine
  {
    var line := PlayerIdLine(playerId);
    assert line[0] == 'P';
  }
}
