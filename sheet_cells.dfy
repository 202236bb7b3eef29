/** Values as they pass between the app and its spreadsheet, with the bits of
    Python semantics (truthiness, `==` against a bool, `str.upper`) the app
    applies to them. */
module SheetCells {

  datatype Option<T> = None | Some(value: T)

  /** One cell of a worksheet record, or one value of an in-memory record. */
  datatype Cell =
    | Text(s: string)
    | DateText(day: int)   // the string strftime("%Y-%m-%d") gives for day number `day`
    | Number(n: int)
    | Flag(b: bool)

  /** The outcome of reading one worksheet: its records, or an exception. */
  datatype Fetch<T> = Fetched(records: seq<T>) | Failed

  /** Python's `isinstance(c, str)`. */
  predicate IsString(c: Cell) {
    c.Text? || c.DateText?
  }

  /** Python's `bool(c)`. */
  predicate Truthy(c: Cell) {
    match c
    case Text(s) => s != ""
    case DateText(_) => true
    case Number(n) => n != 0
    case Flag(b) => b
  }

  /** Python's `c == b` for a bool `b` (True == 1 and False == 0 hold in Python). */
  predicate EqualsBool(c: Cell, b: bool) {
    match c
    case Flag(f) => f == b
    case Number(n) => n == (if b then 1 else 0)
    case _ => false
  }

  lemma EqualsBoolIsTruthy(c: Cell, b: bool)
    requires EqualsBool(c, b)
    ensures Truthy(c) == b
  {
  }

  /** `str.upper` on one character, for the ASCII letters. */
  function UpperChar(ch: char): char {
    if 'a' <= ch <= 'z' then (ch as int - 32) as char else ch
  }

  function Upper(s: string): string {
    seq(|s|, k requires 0 <= k < |s| => UpperChar(s[k]))
  }

  /** The characters that upper-case to an upper-case ASCII letter are that letter and its lower-case form. */
  lemma UpperCharOf(ch: char, u: char)
    requires 'A' <= u <= 'Z'
    ensures UpperChar(ch) == u <==> ch == u || ch as int == u as int + 32
  {
  }

  /** `s.upper() == 'TRUE'`. */
  predicate SpellsTrue(s: string) {
    Upper(s) == "TRUE"
  }

  /** The strings the load step reads as true are exactly the case variants of "true". */
  lemma SpellsTrueExactly(s: string)
    ensures SpellsTrue(s) <==>
      |s| == 4 && s[0] in "tT" && s[1] in "rR" && s[2] in "uU" && s[3] in "eE"
  {
    if SpellsTrue(s) {
      assert |s| == 4;
      forall k | 0 <= k < 4 ensures UpperChar(s[k]) == "TRUE"[k] {
        assert Upper(s)[k] == UpperChar(s[k]);
      }
      UpperCharOf(s[0], 'T');
      UpperCharOf(s[1], 'R');
      UpperCharOf(s[2], 'U');
      UpperCharOf(s[3], 'E');
    }
    if |s| == 4 && s[0] in "tT" && s[1] in "rR" && s[2] in "uU" && s[3] in "eE" {
      assert Upper(s) == [UpperChar(s[0]), UpperChar(s[1]), UpperChar(s[2]), UpperChar(s[3])];
    }
  }

  /** `isinstance(c, str) and c.upper() == 'TRUE'`; a formatted date is never "TRUE". */
  predicate IsTrueString(c: Cell) {
    c.Text? && SpellsTrue(c.s)
  }
}
