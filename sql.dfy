/** The parts of Sequelize on PostgreSQL that the credential models rely on:
    the errors an insert can raise and the column checks behind them. */
module Sql {
  import opened Primitives

  /** Milliseconds since the epoch, as a JavaScript `Date` holds them. */
  type Instant = int

  /** PostgreSQL's INTEGER. */
  const INT4_MIN: int := -0x8000_0000
  const INT4_MAX: int := 0x7FFF_FFFF

  datatype DbError =
    | NotNullViolation(columns: seq<string>)   // Sequelize validation, before any hook
    | ValueTooLong(column: string)              // VARCHAR(n) in PostgreSQL, unless the excess is spaces
    | IntegerOutOfRange(column: string)         // INTEGER in PostgreSQL
    | UniqueViolation(column: string)           // primary key or unique index

  /** A column of a row about to be written: its name, value and VARCHAR bound. */
  datatype VarcharColumn = VarcharColumn(name: string, value: string, maxLength: nat)

  /** Whether PostgreSQL accepts a value for a VARCHAR(n) column: it does when
      the value has at most n characters, and also when every character past
      the n-th is a space. */
  predicate FitsVarchar(value: string, n: nat) {
    |value| <= n || forall i | n <= i < |value| :: value[i] == ' '
  }

  /** The value PostgreSQL stores in a VARCHAR(n) column: an over-long value
      whose excess is all spaces is cut to n characters. */
  function StoreVarchar(value: string, n: nat): (r: string)
    ensures r <= value && |r| <= n
    ensures |value| <= n ==> r == value
    ensures |value| > n ==> |r| == n
    ensures FitsVarchar(value, n) ==> forall i | |r| <= i < |value| :: value[i] == ' '
  {
    if |value| <= n then value else value[..n]
  }

  /** The first column, in schema order, whose value PostgreSQL refuses for its VARCHAR. */
  function FirstTooLong(cols: seq<VarcharColumn>): (r: Option<string>)
    ensures r.None? <==> forall i :: 0 <= i < |cols| ==> FitsVarchar(cols[i].value, cols[i].maxLength)
    ensures r.Some? ==> exists i :: 0 <= i < |cols| && cols[i].name == r.value
                                    && !FitsVarchar(cols[i].value, cols[i].maxLength)
  {
    if cols == [] then None
    else if !FitsVarchar(cols[0].value, cols[0].maxLength) then Some(cols[0].name)
    else
      var rest := FirstTooLong(cols[1..]);
      assert forall i :: 1 <= i < |cols| ==> cols[1..][i - 1] == cols[i];
      rest
  }

  /** The names, in schema order, of the NOT NULL columns given no value. */
  function MissingColumns(cols: seq<(string, bool)>): (r: seq<string>)
    ensures |r| <= |cols|
    ensures r == [] <==> forall i :: 0 <= i < |cols| ==> cols[i].1
    ensures forall i :: 0 <= i < |cols| && !cols[i].1 ==> cols[i].0 in r
  {
    if cols == [] then []
    else
      var rest := MissingColumns(cols[1..]);
      assert forall i :: 1 <= i < |cols| ==> cols[1..][i - 1] == cols[i];
      if cols[0].1 then rest else [cols[0].0] + rest
  }
}
