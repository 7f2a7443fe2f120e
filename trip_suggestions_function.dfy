/**
 * The trip-suggestions service: its defaults, the extraction of the JSON
 * text from a fenced answer, and the service's answer.
 */
module TripSuggestionsFunction {
  import opened Wrappers
  import opened Text
  import opened TripPrompt

  /** `searchParams?.days || 3`. */
  function SuggestedDays(params: Option<RequestParams>): (r: int)
    ensures r != 0
    ensures params.Some? && params.value.days != 0 ==> r == params.value.days
    ensures params.None? ==> r == 3
  {
    if params.Some? && params.value.days != 0 then params.value.days else 3
  }

  /**
   * The JSON text of an answer: after a "```json" fence, up to the next
   * fence; else after a plain fence, up to the next; trimmed. An answer
   * without a fence is kept as it is.
   */
  function ExtractJson(s: string): (r: string)
    ensures Contains(s, "```") ==> !Contains(r, "```")
    ensures !Contains(s, "```") ==> r == s
  {
    JsonFenceIsFence(s);
    if Contains(s, "```json") then FencedPiece(s, "```json")
    else if Contains(s, "```") then FencedPiece(s, "```")
    else s
  }

  /** The trimmed text between the first `sep` and the next plain fence: no fence is left in it. */
  function FencedPiece(s: string, sep: string): (r: string)
    requires |sep| > 0 && Contains(s, sep)
    ensures !Contains(r, "```")
  {
    var x := Split(s, sep)[1];
    SplitPiecesFree(x, "```");
    var piece := Split(x, "```")[0];
    ContainsTrim(piece, "```");
    Trim(piece)
  }

  /** Every "```json" fence is also a plain fence. */
  lemma JsonFenceIsFence(s: string)
    ensures Contains(s, "```json") ==> Contains(s, "```")
  {
    if Contains(s, "```json") {
      var i := IndexOf(s, "```json").value;
      assert s[i..i + 3] == s[i..i + 7][..3];
      assert OccursAt(s, "```", i);
    }
  }

  lemma SecondPiece(s: string, sep: string, x: string) returns (start: nat)
    requires |sep| > 0 && Contains(s, sep) && x == Split(s, sep)[1]
    ensures start == IndexOf(s, sep).value + |sep|
    ensures start + |x| <= |s| && x == s[start..start + |x|]
  {
    SplitSecond(s, sep);
    start := IndexOf(s, sep).value + |sep|;
  }

  lemma FirstPiece(x: string, sep: string)
    requires |sep| > 0
    ensures |Split(x, sep)[0]| <= |x| && Split(x, sep)[0] == x[..|Split(x, sep)[0]|]
  {
    SplitFirst(x, sep);
  }

  /** The extracted text is a piece of the answer lying after its first "```json" fence: `s[a..b]`. */
  lemma ExtractedAfterJsonFence(s: string) returns (a: nat, b: nat)
    requires Contains(s, "```json")
    ensures IndexOf(s, "```json").value + 7 <= a <= b <= |s| && ExtractJson(s) == s[a..b]
  {
    assert ExtractJson(s) == FencedPiece(s, "```json");
    a, b := PieceAfterFence(s);
  }

  lemma PieceAfterFence(s: string) returns (a: nat, b: nat)
    requires Contains(s, "```json")
    ensures IndexOf(s, "```json").value + 7 <= a <= b <= |s| && Trim(Split(Split(s, "```json")[1], "```")[0]) == s[a..b]
  {
    var x := Split(s, "```json")[1];
    var start := SecondPiece(s, "```json", x);
    var y := Split(x, "```")[0];
    FirstPiece(x, "```");
    PrefixOfPiece(s, start, x, y);
    var r := Trim(y);
    a := TrimPieceOffset(s, start, y, r);
    b := a + |r|;
  }

  /** The service's answer: status 500 without an API key, on a gateway error or when the extracted text does not parse. */
  function Respond<T>(hasKey: bool, reply: Option<string>, parse: string -> Option<T>): (r: Response<T>)
    ensures r.status == 500 <==> !hasKey || reply.None? || parse(ExtractJson(reply.value)).None?
    ensures r.success ==> reply.Some? && r.body == parse(ExtractJson(reply.value))
    ensures r.success <==> r.status == 200
  {
    if !hasKey then Failure()
    else match reply
      case None => Failure()
      case Some(text) =>
        match parse(ExtractJson(text))
        case None => Failure()
        case Some(v) => Success(v)
  }
}
