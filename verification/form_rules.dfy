/**
 * The rules the sign-in, sign-up and profile forms share: the two regular
 * expressions they test, the error map they fill, and the shapes a
 * server's `detail` can take when a request is refused.
 */
module FormRules {
  import opened Wrappers
  import opened Text

  /**
   * `/\S+@\S+\.\S+/.test(s)`: somewhere in `s` a non-space character, an
   * `@`, a non-empty run of non-space characters, a `.` and a non-space
   * character follow each other.
   */
  predicate EmailLike(s: string) {
    exists a, d :: 1 <= a < d - 1 && d < |s| - 1 && EmailAt(s, a, d)
  }

  /** The sign-up and sign-in forms share this e-mail rule and its two messages. */
  const EmailRequired := "Email is required"
  const EmailInvalid := "Invalid email format"

  /** An e-mail needs at least five characters to match, so the empty string fails the pattern. */
  function EmailRule(s: string): (r: Option<string>)
    ensures r.None? <==> EmailLike(s)
    ensures r == Some(EmailRequired) <==> s == []
  {
    if s == [] then Some(EmailRequired)
    else if !EmailLike(s) then Some(EmailInvalid)
    else None
  }

  /** `s[a]` is the `@` and `s[d]` the `.` of a match of that expression. */
  predicate EmailAt(s: string, a: int, d: int)
    requires 1 <= a < d - 1 && d < |s| - 1
  {
    s[a] == '@' && s[d] == '.' && !IsJsSpace(s[a - 1]) && !IsJsSpace(s[d + 1])
    && forall k :: a < k < d ==> !IsJsSpace(s[k])
  }

  /**
   * `/(?=.*[a-zA-Z])(?=.*[0-9])/.test(s)`: from some position, a letter and
   * a digit can both be reached without crossing a line terminator (`.`
   * does not match one), so a letter and a digit share a line.
   */
  predicate LetterAndDigitOnOneLine(s: string) {
    exists i, j :: 0 <= i < |s| && 0 <= j < |s| && IsAsciiLetter(s[i]) && IsAsciiDigit(s[j])
      && NoLineBreakBetween(s, i, j)
  }

  /** No line terminator at or between positions `i` and `j`, in either order. */
  predicate NoLineBreakBetween(s: string, i: int, j: int)
    requires 0 <= i < |s| && 0 <= j < |s|
  {
    var lo := if i <= j then i else j;
    var hi := if i <= j then j else i;
    forall k :: lo <= k <= hi ==> !IsLineTerminator(s[k])
  }

  predicate HasAsciiLetter(s: string) {
    exists i :: 0 <= i < |s| && IsAsciiLetter(s[i])
  }

  predicate HasAsciiDigit(s: string) {
    exists i :: 0 <= i < |s| && IsAsciiDigit(s[i])
  }

  /** A letter and a digit on one line are in particular a letter and a digit somewhere. */
  lemma OneLineHasBoth(s: string)
    requires LetterAndDigitOnOneLine(s)
    ensures HasAsciiLetter(s) && HasAsciiDigit(s)
  {
    var i, j :| 0 <= i < |s| && 0 <= j < |s| && IsAsciiLetter(s[i]) && IsAsciiDigit(s[j])
      && NoLineBreakBetween(s, i, j);
    assert IsAsciiLetter(s[i]);
    assert IsAsciiDigit(s[j]);
  }

  /** The converse fails: a letter and a digit on different lines. */
  lemma SplitLinesRejected()
    ensures HasAsciiLetter("abcdefg\n1") && HasAsciiDigit("abcdefg\n1")
    ensures !LetterAndDigitOnOneLine("abcdefg\n1")
  {
    var s := "abcdefg\n1";
    assert IsAsciiLetter(s[0]) && IsAsciiDigit(s[8]);
    forall i, j | 0 <= i < |s| && 0 <= j < |s| && IsAsciiLetter(s[i]) && IsAsciiDigit(s[j])
      ensures !NoLineBreakBetween(s, i, j)
    {
      assert j == 8 && i < 7 + 1;
      assert IsLineTerminator(s[7]);
    }
  }

  /** A short example: `a@b.c` passes, `a@b` and `a @b.c` do not. */
  lemma EmailExamples()
    ensures EmailLike("a@b.c")
    ensures !EmailLike("a@b")
    ensures !EmailLike("@b.c")
  {
    var s := "a@b.c";
    assert EmailAt(s, 1, 3);
  }

  /** One rule's outcome: the message of the first failing check, or none. */
  datatype FieldResult = FieldResult(field: string, message: Option<string>)

  /**
   * The `newErrors` object the rules fill in order: one entry per field
   * whose rule failed, a later rule for the same field overwriting.
   */
  function ErrorsOf(results: seq<FieldResult>): map<string, string> {
    if results == [] then map[]
    else Recorded(ErrorsOf(results[..|results| - 1]), results[|results| - 1])
  }

  /** One rule's step of `validate`: record its message if it failed. */
  function Recorded(m: map<string, string>, r: FieldResult): map<string, string> {
    if r.message.Some? then m[r.field := r.message.value] else m
  }

  /** Four rules, applied in order. */
  lemma ErrorsOf4(a: FieldResult, b: FieldResult, c: FieldResult, d: FieldResult)
    ensures ErrorsOf([a, b, c, d]) == Recorded(Recorded(Recorded(Recorded(map[], a), b), c), d)
  {
    assert [a, b, c, d][..3] == [a, b, c];
    assert [a, b, c][..2] == [a, b];
    ErrorsOf2(a, b);
    assert ErrorsOf([a, b, c]) == Recorded(ErrorsOf([a, b]), c);
  }

  /** Two rules, applied in order. */
  lemma ErrorsOf2(a: FieldResult, b: FieldResult)
    ensures ErrorsOf([a, b]) == Recorded(Recorded(map[], a), b)
  {
    assert [a, b][..1] == [a];
    assert [a][..0] == [];
    assert ErrorsOf([a]) == Recorded(ErrorsOf([]), a);
  }

  /** Field names pairwise distinct. */
  predicate DistinctFields(results: seq<FieldResult>) {
    forall i, j :: 0 <= i < j < |results| ==> results[i].field != results[j].field
  }

  /** With distinct field names the map holds exactly the failed fields, each with its rule's message. */
  lemma {:induction false} ErrorsOfExact(results: seq<FieldResult>)
    requires DistinctFields(results)
    ensures forall k :: k in ErrorsOf(results) ==>
      exists i :: 0 <= i < |results| && results[i].field == k && results[i].message.Some?
    ensures forall i :: 0 <= i < |results| ==>
      (results[i].field in ErrorsOf(results) <==> results[i].message.Some?)
      && (results[i].message.Some? ==> ErrorsOf(results)[results[i].field] == results[i].message.value)
  {
    if results != [] {
      var init := results[..|results| - 1];
      assert DistinctFields(init) by {
        forall i, j | 0 <= i < j < |init| ensures init[i].field != init[j].field {
          assert init[i] == results[i] && init[j] == results[j];
        }
      }
      ErrorsOfExact(init);
      forall i | 0 <= i < |init| ensures init[i] == results[i] { }
    }
  }

  /** No field failed exactly when the map is empty. */
  lemma ErrorsOfEmpty(results: seq<FieldResult>)
    requires DistinctFields(results)
    ensures ErrorsOf(results) == map[] <==> forall i :: 0 <= i < |results| ==> results[i].message.None?
  {
    ErrorsOfExact(results);
    if ErrorsOf(results) != map[] {
      var k :| k in ErrorsOf(results);
      var i :| 0 <= i < |results| && results[i].field == k && results[i].message.Some?;
    }
  }

  /** A JSON value a server may send as `detail`, and JavaScript's view of it. */
  datatype Detail =
    | Missing
    | DNull
    | DBool(b: bool)
    | DNumber(n: int)
    | DString(s: string)
    | DArray(items: seq<ErrorItem>)
    | DObject(json: string)

  /** An entry of FastAPI's validation-error list; only its `msg` is read. */
  datatype ErrorItem = ErrorItem(msg: Option<string>)

  /** JavaScript truthiness of a `detail`: arrays and objects are truthy even when empty. */
  predicate DetailTruthy(d: Detail) {
    match d
    case Missing => false
    case DNull => false
    case DBool(b) => b
    case DNumber(n) => n != 0
    case DString(s) => s != []
    case DArray(_) => true
    case DObject(_) => true
  }

  /** `String(detail)` for a detail that is neither an array nor an object. */
  function DetailText(d: Detail): string {
    match d
    case Missing => "undefined"
    case DNull => "null"
    case DBool(b) => if b then "true" else "false"
    case DNumber(n) => ShowInt(n)
    case DString(s) => s
    case DArray(_) => ""
    case DObject(json) => json
  }

  /** `err.msg` as `join` renders it: `undefined` and `null` become the empty string. */
  function ItemText(e: ErrorItem): string {
    if e.msg.Some? then e.msg.value else ""
  }

  function ItemTexts(items: seq<ErrorItem>): (r: seq<string>)
    ensures |r| == |items| && forall i :: 0 <= i < |items| ==> r[i] == ItemText(items[i])
  {
    seq(|items|, i requires 0 <= i < |items| => ItemText(items[i]))
  }
}
