/**
 * The value rules of the INSERT statement that `insertSnapshot` builds: which optional columns
 * become `NULL`, and the doubling of single quotes in `notes`.
 */
module SqlRules {
  import opened Types

  const Quote: char := '\''

  /** A value as it is written into the statement; `SqlText` is written between single quotes. */
  datatype SqlValue = SqlNull | SqlText(body: string) | SqlNumber(value: real)

  function QuoteCount(s: string): nat
  {
    if s == [] then 0 else (if s[0] == Quote then 1 else 0) + QuoteCount(s[1..])
  }

  /** `s.replace(/'/g, "''")`: every single quote doubled, everything else copied. */
  function EscapeQuotes(s: string): (r: string)
    ensures |r| == |s| + QuoteCount(s)
  {
    if s == [] then []
    else (if s[0] == Quote then [Quote, Quote] else [s[0]]) + EscapeQuotes(s[1..])
  }

  /**
   * The quote-un-doubling reading of a quoted literal's body, starting after the opening quote: a
   * doubled quote stands for one quote, a single quote ends the literal, and every other character
   * (a backslash included) stands for itself. Gives the text and what follows the closing quote;
   * `None` when the literal is never closed.
   */
  function ReadQuoted(t: string): Option<(string, string)>
  {
    if t == [] then None
    else if t[0] == Quote then
      if |t| >= 2 && t[1] == Quote then
        match ReadQuoted(t[2..])
        case None => None
        case Some((body, rest)) => Some(([Quote] + body, rest))
      else Some(([], t[1..]))
    else
      match ReadQuoted(t[1..])
      case None => None
      case Some((body, rest)) => Some(([t[0]] + body, rest))
  }

  /**
   * Undoing the doubling: under the quote-un-doubling reading, the escaped text, closed by a quote
   * and followed by anything that does not start with a quote (in the statement, the next comma),
   * reads back as exactly `s`.
   */
  lemma {:induction false} EscapeReadsBack(s: string, rest: string)
    requires rest == [] || rest[0] != Quote
    ensures ReadQuoted(EscapeQuotes(s) + [Quote] + rest) == Some((s, rest))
  {
    var t := EscapeQuotes(s) + [Quote] + rest;
    if s == [] {
      assert t == [Quote] + rest;
      assert t[1..] == rest;
    } else {
      var tail := EscapeQuotes(s[1..]) + [Quote] + rest;
      EscapeReadsBack(s[1..], rest);
      if s[0] == Quote {
        assert t == [Quote, Quote] + tail;
        assert t[2..] == tail;
      } else {
        assert t == [s[0]] + tail;
        assert t[1..] == tail;
      }
      assert [s[0]] + s[1..] == s;
    }
  }

  /** `market_condition ? '<market_condition>' : NULL`: absent or empty gives NULL; the text is not escaped. */
  function MarketConditionValue(marketCondition: Option<string>): (v: SqlValue)
    ensures v == SqlNull <==> marketCondition == None || marketCondition == Some("")
    ensures v != SqlNull ==> v == SqlText(marketCondition.value)
  {
    match marketCondition
    case None => SqlNull
    case Some(m) => if m == "" then SqlNull else SqlText(m)
  }

  /** `session_duration_minutes || NULL`: absent or zero gives NULL. */
  function DurationValue(minutes: Option<real>): (v: SqlValue)
    ensures v == SqlNull <==> minutes == None || minutes == Some(0.0)
    ensures v != SqlNull ==> v == SqlNumber(minutes.value)
  {
    match minutes
    case None => SqlNull
    case Some(d) => if d == 0.0 then SqlNull else SqlNumber(d)
  }

  /** `notes ? '<notes with quotes doubled>' : NULL`: absent or empty gives NULL, and a present note is read back intact by the quote-un-doubling reading. */
  function NotesValue(notes: Option<string>): (v: SqlValue)
    ensures v == SqlNull <==> notes == None || notes == Some("")
    ensures v != SqlNull ==> v.SqlText? && |v.body| == |notes.value| + QuoteCount(notes.value)
    ensures v != SqlNull ==> ReadQuoted(v.body + [Quote] + ",") == Some((notes.value, ","))
  {
    match notes
    case None => SqlNull
    case Some(n) =>
      if n == "" then SqlNull
      else
        EscapeReadsBack(n, ",");
        SqlText(EscapeQuotes(n))
  }

  /** The three optional columns of the INSERT statement, in order. */
  datatype OptionalColumns = OptionalColumns(marketCondition: SqlValue, sessionDurationMinutes: SqlValue, notes: SqlValue)

  function OptionalColumnsOf(snapshot: BehavioralSnapshot): OptionalColumns
  {
    OptionalColumns(
      MarketConditionValue(snapshot.marketCondition),
      DurationValue(snapshot.sessionDurationMinutes),
      NotesValue(snapshot.notes))
  }
}
