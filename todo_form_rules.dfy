/** The client-side checks shared by the two TODO forms
    (`exercises1/frontend/components/AddTodoForm.tsx` and `EditTodoForm.tsx`): the tag text
    parser, the tag removal button, and `validateForm`. */
module TodoFormRules {
  import opened Wrappers
  import opened Strings
  import opened Seqs

  predicate NonEmpty(s: string) { s != "" }

  /** A tag as the parser leaves it: not empty, no comma, no whitespace at either end. */
  predicate CleanTag(t: string)
  {
    t != "" && ',' !in t && t[0] !in JsWhitespace && t[|t| - 1] !in JsWhitespace
  }

  /** `.map(tag => tag.trim()).filter(tag => tag)` over the pieces of the tag text. */
  function TrimPieces(pieces: seq<string>): (tags: seq<string>)
    ensures |tags| <= |pieces|
    ensures forall i :: 0 <= i < |tags| ==> tags[i] != "" && tags[i][0] !in JsWhitespace && tags[i][|tags[i]| - 1] !in JsWhitespace
    ensures (forall i :: 0 <= i < |pieces| ==> ',' !in pieces[i]) ==> forall i :: 0 <= i < |tags| ==> ',' !in tags[i]
    decreases |pieces|
  {
    if |pieces| == 0 then []
    else
      var t := JsTrim(pieces[0]);
      var rest := TrimPieces(pieces[1..]);
      if t == "" then rest
      else
        assert forall i :: 0 <= i < |pieces| - 1 ==> pieces[1..][i] == pieces[i + 1];
        if ',' !in pieces[0] then
          StripKeepsAbsent(pieces[0], JsWhitespace, ',');
          [t] + rest
        else [t] + rest
  }

  /** `tags.split(",").map(tag => tag.trim()).filter(tag => tag)`. */
  function ParseTags(raw: string): (tags: seq<string>)
    ensures forall i :: 0 <= i < |tags| ==> CleanTag(tags[i])
  {
    SplitPiecesFree(raw, ',');
    TrimPieces(Split(raw, ','))
  }

  /** The pieces of the tag text are trimmed and filtered as `map(trim)` followed by
      `filter`. */
  lemma {:induction false} TrimPiecesIsMapFilter(pieces: seq<string>)
    ensures TrimPieces(pieces) == Filter(Map(pieces, JsTrim), NonEmpty)
    decreases |pieces|
  {
    if |pieces| > 0 {
      TrimPiecesIsMapFilter(pieces[1..]);
      assert Map(pieces, JsTrim)[1..] == Map(pieces[1..], JsTrim);
    }
  }

  /** An empty tag text holds no tags. */
  lemma ParseEmpty()
    ensures ParseTags("") == []
  {
    assert Split("", ',') == [""];
    assert JsTrim("") == "";
  }

  function Space(t: string): string { " " + t }

  /** Joining with ", " is joining with "," after putting a space in front of every tag but
      the first. */
  lemma {:induction false} JoinCommaSpace(ts: seq<string>)
    requires |ts| >= 1
    ensures Join(ts, ", ") == Join([ts[0]] + Map(ts[1..], Space), ",")
    decreases |ts|
  {
    if |ts| >= 2 {
      JoinCommaSpace(ts[1..]);
      var m2 := Map(ts[2..], Space);
      assert ts[1..][1..] == ts[2..];
      assert Map(ts[1..], Space) == [" " + ts[1]] + m2;
      assert ([ts[0]] + Map(ts[1..], Space))[1..] == Map(ts[1..], Space);
      if |ts| > 2 {
        assert ([ts[1]] + m2)[1..] == m2;
        assert ([" " + ts[1]] + m2)[1..] == m2;
      }
    }
  }

  /** Trimming the pieces of the spaced list of clean tags gives the tags back. */
  lemma {:induction false} TrimSpaced(first: string, ts: seq<string>)
    requires CleanTag(first)
    requires forall i :: 0 <= i < |ts| ==> CleanTag(ts[i])
    ensures TrimPieces([first] + Map(ts, Space)) == [first] + ts
    decreases |ts|
  {
    StripUnchanged(first, JsWhitespace);
    var spaced := [first] + Map(ts, Space);
    assert spaced[1..] == Map(ts, Space);
    if |ts| > 0 {
      TrimSpaced(ts[0], ts[1..]);
      StripLeading(' ', ts[0], JsWhitespace);
      assert Map(ts, Space) == [" " + ts[0]] + Map(ts[1..], Space);
      assert [' '] + ts[0] == " " + ts[0];
      assert Map(ts, Space)[1..] == Map(ts[1..], Space);
      assert [ts[0]] + ts[1..] == ts;
    }
  }

  /** The spaced pieces of clean tags contain no comma. */
  lemma SpacedCommaFree(ts: seq<string>)
    requires |ts| >= 1
    requires forall i :: 0 <= i < |ts| ==> CleanTag(ts[i])
    ensures forall i :: 0 <= i < |ts| ==> ',' !in ([ts[0]] + Map(ts[1..], Space))[i]
  {
    var spaced := [ts[0]] + Map(ts[1..], Space);
    forall i | 0 <= i < |ts| ensures ',' !in spaced[i] {
      if i > 0 { assert spaced[i] == [' '] + ts[i]; }
    }
  }

  /** Round trip of the tag text: a list of clean tags joined with ", " parses back to the
      same list, in the same order. */
  lemma ParseJoin(ts: seq<string>)
    requires forall i :: 0 <= i < |ts| ==> CleanTag(ts[i])
    ensures ParseTags(Join(ts, ", ")) == ts
  {
    if |ts| == 0 {
      ParseEmpty();
    } else {
      SplitSpaced(ts);
      TrimSpaced(ts[0], ts[1..]);
      assert [ts[0]] + ts[1..] == ts;
    }
  }

  /** The text of clean tags joined with ", " splits on "," into the spaced pieces. */
  lemma SplitSpaced(ts: seq<string>)
    requires |ts| >= 1
    requires forall i :: 0 <= i < |ts| ==> CleanTag(ts[i])
    ensures Split(Join(ts, ", "), ',') == [ts[0]] + Map(ts[1..], Space)
  {
    var spaced := [ts[0]] + Map(ts[1..], Space);
    JoinCommaSpace(ts);
    SpacedCommaFree(ts);
    SplitJoin(spaced, ',');
  }

  /** `tagList.splice(index, 1)`: removes the entry at `index`; an index past the end
      removes nothing. */
  function Splice(ts: seq<string>, index: nat): (r: seq<string>)
    ensures index < |ts| ==> |r| == |ts| - 1 && r == ts[..index] + ts[index + 1..]
    ensures index >= |ts| ==> r == ts
  {
    if index < |ts| then ts[..index] + ts[index + 1..] else ts
  }

  /** The tag-removal button: parse, remove the entry at `index`, join with ", ". */
  function RemoveTag(raw: string, index: nat): (r: string)
    ensures ParseTags(r) == Splice(ParseTags(raw), index)
  {
    var remaining := Splice(ParseTags(raw), index);
    ParseJoin(remaining);
    Join(remaining, ", ")
  }

  /** The per-field messages `validateForm` sets; `None` is a field without an error. */
  datatype ValidationErrors = ValidationErrors(
    title: Option<string>,
    description: Option<string>,
    dueDate: Option<string>,
    tags: Option<string>)

  const NoErrors := ValidationErrors(None, None, None, None)

  const TitleRequired := "Title is required"
  const TitleTooLong := "Title must be less than 100 characters"
  const DescriptionTooLong := "Description must be less than 500 characters"
  const DueDateRequired := "Due date is required"
  const DueDateFormat := "Due date must be in YYYY-MM-DD format"
  const TooManyTags := "Maximum 10 tags allowed"
  const TagTooLong := "Each tag must be less than 20 characters"

  /** `/^\d{4}-\d{2}-\d{2}$/.test(s)`: four, two and two ASCII digits separated by "-",
      and nothing else. */
  predicate IsDateShape(s: string)
  {
    |s| == 10 && s[4] == '-' && s[7] == '-'
    && forall i :: 0 <= i < 10 && i != 4 && i != 7 ==> IsAsciiDigit(s[i])
  }

  /** The error each field check of `validateForm` records, field by field. */
  function ExpectedErrors(title: string, description: string, dueDate: string, tags: string): ValidationErrors
  {
    var tagList := ParseTags(tags);
    ValidationErrors(
      if JsTrim(title) == "" then Some(TitleRequired)
      else if |title| > 100 then Some(TitleTooLong) else None,
      if |description| > 500 then Some(DescriptionTooLong) else None,
      if dueDate == "" then Some(DueDateRequired)
      else if !IsDateShape(dueDate) then Some(DueDateFormat) else None,
      if tags == "" then None
      else if |tagList| > 10 then Some(TooManyTags)
      else if |Filter(tagList, LongTag)| > 0 then Some(TagTooLong) else None)
  }

  predicate LongTag(t: string) { |t| > 20 }

  /** The form passes exactly when the title is non-blank and at most 100 characters, the
      description at most 500, the due date has the `YYYY-MM-DD` shape, and the tag text
      holds at most 10 tags of at most 20 characters each. */
  lemma ValidIff(title: string, description: string, dueDate: string, tags: string)
    ensures ExpectedErrors(title, description, dueDate, tags) == NoErrors <==>
      && (exists i :: 0 <= i < |title| && title[i] !in JsWhitespace)
      && |title| <= 100
      && |description| <= 500
      && IsDateShape(dueDate)
      && |ParseTags(tags)| <= 10
      && forall i :: 0 <= i < |ParseTags(tags)| ==> |ParseTags(tags)[i]| <= 20
  {
    StripEmptyIff(title, JsWhitespace);
    if tags == "" {
      ParseEmpty();
    }
    LongTagsIff(ParseTags(tags));
  }

  /** Some tag is too long exactly when the filtered list of long tags is not empty. */
  lemma LongTagsIff(tagList: seq<string>)
    ensures |Filter(tagList, LongTag)| > 0 <==> exists i :: 0 <= i < |tagList| && |tagList[i]| > 20
  {
    if |Filter(tagList, LongTag)| > 0 {
      assert Filter(tagList, LongTag)[0] in Filter(tagList, LongTag);
    }
    if exists i :: 0 <= i < |tagList| && |tagList[i]| > 20 {
      var i :| 0 <= i < |tagList| && |tagList[i]| > 20;
      assert tagList[i] in Filter(tagList, LongTag);
    }
  }

  /** `validateForm`: fills the error record one check at a time and clears `isValid` on
      every failed check. */
  method ValidateForm(title: string, description: string, dueDate: string, tags: string)
    returns (errors: ValidationErrors, isValid: bool)
    ensures errors == ExpectedErrors(title, description, dueDate, tags)
    ensures isValid <==> errors == NoErrors
  {
    errors := NoErrors;
    isValid := true;

    if JsTrim(title) == "" {
      errors := errors.(title := Some(TitleRequired));
      isValid := false;
    } else if |title| > 100 {
      errors := errors.(title := Some(TitleTooLong));
      isValid := false;
    }

    if |description| > 500 {
      errors := errors.(description := Some(DescriptionTooLong));
      isValid := false;
    }

    if dueDate == "" {
      errors := errors.(dueDate := Some(DueDateRequired));
      isValid := false;
    } else if !IsDateShape(dueDate) {
      errors := errors.(dueDate := Some(DueDateFormat));
      isValid := false;
    }

    if tags != "" {
      var tagList := ParseTags(tags);
      if |tagList| > 10 {
        errors := errors.(tags := Some(TooManyTags));
        isValid := false;
      } else {
        var invalidTags := Filter(tagList, LongTag);
        if |invalidTags| > 0 {
          errors := errors.(tags := Some(TagTooLong));
          isValid := false;
        }
      }
    }
  }
}
