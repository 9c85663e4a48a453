/** The half-width to full-width text converter of lecture1 (`lecture1/convert/app.py`):
    ASCII digits and six ASCII symbols are replaced by their full-width forms, everything
    else is kept. */
module Convert {
  import opened Wrappers
  import opened Strings
  import opened JsonValue

  /** Distance from an ASCII character to its full-width form (U+FF01..U+FF5E). */
  const FullWidthOffset: int := 0xFEE0

  /** The symbol table `half_to_full`: / - ( ) : ; and their full-width forms
      U+FF0F, U+FF0D, U+FF08, U+FF09, U+FF1A, U+FF1B. */
  const HalfToFull: map<char, char> :=
    map['/' := '／', '-' := '－', '(' := '（', ')' := '）', ':' := '：', ';' := '；']

  /** The characters the pattern `[0-9/\-\(\):;]` matches. */
  predicate IsPatternChar(c: char)
  {
    IsAsciiDigit(c) || c in HalfToFull
  }

  /** `convert_half_to_full`, applied to one matched character. */
  function ConvertMatch(c: char): (r: char)
    requires IsPatternChar(c)
    ensures r as int == c as int + FullWidthOffset
  {
    if IsAsciiDigit(c) then (c as int + FullWidthOffset) as char
    else if c in HalfToFull then HalfToFull[c]
    else c
  }

  /** One character of the converted text: a matched character through
      `convert_half_to_full`, any other character as it is. */
  function Converted(c: char): (r: char)
    ensures IsAsciiDigit(c) ==> r as int == c as int + FullWidthOffset
    ensures c in HalfToFull ==> r == HalfToFull[c]
    ensures !IsPatternChar(c) ==> r == c
  {
    if IsPatternChar(c) then ConvertMatch(c) else c
  }

  /** A converted character never matches the pattern again. */
  lemma ConvertedNotPattern(c: char)
    ensures !IsPatternChar(Converted(c))
  {
    if IsPatternChar(c) {
      assert Converted(c) as int == c as int + FullWidthOffset;
      assert Converted(c) as int >= FullWidthOffset;
    }
  }

  /** `replace_text`: `re.sub` of the pattern through `convert_half_to_full`. Each
      character becomes exactly one character, so the length is kept, and position `i` of
      the result is the conversion of position `i` of the input. */
  function ReplaceText(s: string): (r: string)
    ensures |r| == |s|
    ensures forall i :: 0 <= i < |s| ==> r[i] == Converted(s[i])
    decreases |s|
  {
    if |s| == 0 then ""
    else [Converted(s[0])] + ReplaceText(s[1..])
  }

  /** No character of a converted text matches the pattern again. */
  lemma OutputHasNoPatternChar(s: string)
    ensures forall i :: 0 <= i < |ReplaceText(s)| ==> !IsPatternChar(ReplaceText(s)[i])
  {
    forall i | 0 <= i < |s| ensures !IsPatternChar(ReplaceText(s)[i]) {
      ConvertedNotPattern(s[i]);
    }
  }

  /** Converting twice is converting once: the conversion is idempotent. */
  lemma ReplaceTextIdempotent(s: string)
    ensures ReplaceText(ReplaceText(s)) == ReplaceText(s)
  {
    var r := ReplaceText(s);
    OutputHasNoPatternChar(s);
    var t := ReplaceText(r);
    forall i | 0 <= i < |r| ensures t[i] == r[i] {
      assert !IsPatternChar(r[i]);
    }
  }

  /** A converted text equals `e` when `e` is the position-wise conversion of `s`. */
  lemma ConvertsTo(s: string, e: string)
    requires |e| == |s|
    requires forall i :: 0 <= i < |s| ==> e[i] == Converted(s[i])
    ensures ReplaceText(s) == e
  {
    assert forall i :: 0 <= i < |s| ==> ReplaceText(s)[i] == e[i];
  }

  /** The converted messages of the unit tests: digits only. */
  lemma DigitsExample()
    ensures ReplaceText("123") == "１２３"
  {
    ConvertsTo("123", "１２３");
  }

  /** The converted messages of the unit tests: a range with a hyphen. */
  lemma RangeExample()
    ensures ReplaceText("0-9") == "０－９"
  {
    ConvertsTo("0-9", "０－９");
  }

  /** The converted messages of the unit tests: a date inside Japanese text. */
  lemma DateSentenceExample()
    ensures ReplaceText("今日の日付は2025/02/17です。") == "今日の日付は２０２５／０２／１７です。"
  {
    ConvertsTo("今日の日付は2025/02/17です。", "今日の日付は２０２５／０２／１７です。");
  }

  /** The converted messages of the unit tests: text that is already full-width is kept. */
  lemma FullWidthExample()
    ensures ReplaceText("全角テスト１２３") == "全角テスト１２３"
  {
    ConvertsTo("全角テスト１２３", "全角テスト１２３");
  }

  /** `lambda_handler`: decode the body, insist on a non-blank string `message`, answer with
      the converted text. */
  function Handle(body: EventBody): (r: Response)
    ensures r.Response?
    ensures r.statusCode in {200, 400, 500}
    ensures r.statusCode == 200 <==>
      (DecodeBody(body).Parsed? && DecodeBody(body).value.JObj?
       && Get(DecodeBody(body).value.fields, "message").Some?
       && Get(DecodeBody(body).value.fields, "message").value.JStr?
       && exists i :: 0 <= i < |Get(DecodeBody(body).value.fields, "message").value.s|
                      && Get(DecodeBody(body).value.fields, "message").value.s[i] !in PyWhitespace)
    ensures r.statusCode == 200 ==>
      r.body == JObj(map["converted_message" := JStr(ReplaceText(DecodeBody(body).value.fields["message"].s))])
    ensures r.statusCode != 200 ==> r.body.JObj? && "error" in r.body.fields
  {
    match DecodeBody(body)
    case DecodeError => Response(400, JObj(map["error" := JStr("Invalid JSON format.")]))
    case TypeError => Response(500, JObj(map["error" := JStr("the JSON object must be str, bytes or bytearray, not NoneType")]))
    case Parsed(j) =>
      if !j.JObj? then
        Response(500, JObj(map["error" := JStr("'" + PyTypeName(j) + "' object has no attribute 'get'")]))
      else
        var message := Get(j.fields, "message");
        if !(message.Some? && message.value.JStr?) || PyStrip(message.value.s) == "" then
          StripEmptyIff(if message.Some? && message.value.JStr? then message.value.s else "", PyWhitespace);
          Response(400, JObj(map["error" := JStr("Invalid request. 'message' field is required and must be a non-empty string.")]))
        else
          StripEmptyIff(message.value.s, PyWhitespace);
          Response(200, JObj(map["converted_message" := JStr(ReplaceText(message.value.s))]))
  }

  /** An empty or whitespace-only message is rejected with 400 and an `error` key. */
  lemma BlankMessageRejected(text: string)
    requires forall i :: 0 <= i < |text| ==> text[i] in PyWhitespace
    ensures Handle(Text(Some(JObj(map["message" := JStr(text)])))).statusCode == 400
    ensures "error" in Handle(Text(Some(JObj(map["message" := JStr(text)])))).body.fields
  {
    StripEmptyIff(text, PyWhitespace);
  }
}
