/** From the form field to the stored body (internal/server/app.go and the migrations). */
module TodoBody {
  import opened Text

  const MAX_TODO_BODY_LENGTH := 280

  /** `unicode.IsSpace`. */
  predicate IsSpace(c: char)
  {
    || '\t' <= c <= '\r' || c == ' ' || c == '\U{85}' || c == '\U{A0}' || c == '\U{1680}'
    || '\U{2000}' <= c <= '\U{200A}' || c == '\U{2028}' || c == '\U{2029}' || c == '\U{202F}'
    || c == '\U{205F}' || c == '\U{3000}'
  }

  /** The characters with the Unicode property White_Space. */
  const WHITE_SPACE :=
    "\U{9}\U{A}\U{B}\U{C}\U{D}\U{20}\U{85}\U{A0}\U{1680}\U{2000}\U{2001}\U{2002}\U{2003}\U{2004}\U{2005}"
    + "\U{2006}\U{2007}\U{2008}\U{2009}\U{200A}\U{2028}\U{2029}\U{202F}\U{205F}\U{3000}"

  lemma SpaceIsWhiteSpace(c: char)
    ensures IsSpace(c) <==> c in WHITE_SPACE
  {
  }

  predicate IsBlank(c: char) { c == ' ' }

  /** `strings.TrimSpace`. */
  function TrimSpace(s: string): string { Trim(s, IsSpace) }

  /** SQL `trim`, which drops spaces only. */
  function SqlTrim(s: string): string { Trim(s, IsBlank) }

  datatype FormError = NoError | BodyRequired | BodyTooLong

  function ValidateTodoBody(raw: string): FormError
  {
    var body := TrimSpace(raw);
    if body == "" then BodyRequired
    else if |body| > MAX_TODO_BODY_LENGTH then BodyTooLong
    else NoError
  }

  /** The check on the column, and the table constraints before and after they were split. */
  predicate ColumnCheck(body: string) { |SqlTrim(body)| > 0 }

  predicate TrimLengthCheck(body: string) { |SqlTrim(body)| > 0 && |SqlTrim(body)| <= 280 }

  predicate MaxLengthCheck(body: string) { |SqlTrim(body)| <= 280 }

  predicate AllowedBeforeSplit(body: string) { ColumnCheck(body) && TrimLengthCheck(body) }

  predicate AllowedAfterSplit(body: string) { ColumnCheck(body) && MaxLengthCheck(body) }

  /** PostgreSQL text cannot hold a NUL character. */
  predicate Storable(body: string) { '\0' !in body }

  lemma SpacesAreSpace(s: string)
    requires Trimmed(s, IsSpace)
    ensures Trimmed(s, IsBlank)
  {
  }

  /** What trimming takes off is white space, on both sides, and nothing of what is left is. */
  lemma OnlySpaceGoes(raw: string) returns (left: string, right: string)
    ensures raw == left + TrimSpace(raw) + right
    ensures forall i :: 0 <= i < |left| ==> left[i] in WHITE_SPACE
    ensures forall i :: 0 <= i < |right| ==> right[i] in WHITE_SPACE
    ensures var body := TrimSpace(raw);
            body != "" ==> body[0] !in WHITE_SPACE && body[|body| - 1] !in WHITE_SPACE
  {
    left, right := TrimSplits(raw, IsSpace);
    TrimTrims(raw, IsSpace);
    forall c ensures IsSpace(c) <==> c in WHITE_SPACE {
      SpaceIsWhiteSpace(c);
    }
    hide IsSpace, WHITE_SPACE;
  }

  /**
   The handler trims and validates; the insert trims again. The second trim never changes
   anything, and the handler accepts exactly the trimmed bodies that the constraints allow,
   whether in their form before or after the split. Nothing but white space is "required".
   */
  lemma BodyPipeline(raw: string)
    ensures var body := TrimSpace(raw);
            && SqlTrim(body) == body
            && TrimSpace(body) == body
            && (ValidateTodoBody(body) == NoError <==> AllowedAfterSplit(SqlTrim(body)))
            && (ValidateTodoBody(body) == NoError <==> AllowedBeforeSplit(SqlTrim(body)))
            && (ValidateTodoBody(body) == BodyRequired <==> forall i :: 0 <= i < |raw| ==> IsSpace(raw[i]))
            && (ValidateTodoBody(body) == BodyTooLong <==> |body| > 280)
  {
    var body := TrimSpace(raw);
    TrimTrims(raw, IsSpace);
    SpacesAreSpace(body);
    TrimFixed(body, IsBlank);
    TrimFixed(body, IsSpace);
    TrimmedAway(raw, IsSpace);
  }

  /** Splitting the constraint changed what it rejects for no stored row. */
  lemma SplitKeepsConstraints(body: string)
    ensures AllowedBeforeSplit(body) <==> AllowedAfterSplit(body)
  {
  }
}
