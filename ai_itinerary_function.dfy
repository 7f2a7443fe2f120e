/**
 * The itinerary service: the number of days planned, the list of place
 * types quoted in the prompt, the clean-up of the model's answer before it
 * is parsed, and the service's answer.
 */
module AiItineraryFunction {
  import opened Wrappers
  import opened Seqs
  import opened Text
  import opened TripPrompt

  /** `searchParams?.days || Math.ceil(count / 3)`: the requested days, else three places a day. */
  function PlannedDays(params: Option<RequestParams>, count: nat): (r: int)
    ensures params.Some? && params.value.days != 0 ==> r == params.value.days
    ensures !(params.Some? && params.value.days != 0) ==> 0 <= r && count <= 3 * r < count + 3
  {
    if params.Some? && params.value.days != 0 then params.value.days else (count + 2) / 3
  }

  /** Without requested days the plan has the fewest days that hold every place at three a day. */
  lemma DefaultDaysFit(count: nat)
    ensures var d := PlannedDays(None, count);
      d >= 0 && 3 * d >= count && (count > 0 ==> 3 * (d - 1) < count)
  {
  }

  /** The first position of `x` in `s`: `indexOf`. */
  function FirstIndex<T(==)>(s: seq<T>, x: T): (r: nat)
    requires x in s
    ensures r < |s| && s[r] == x && forall j :: 0 <= j < r ==> s[j] != x
  {
    if s[0] == x then 0 else 1 + FirstIndex(s[1..], x)
  }

  /** `filter((v, i, a) => a.indexOf(v) === i)` over the first `k` elements. */
  function FirstOccurrences<T(==,!new)>(s: seq<T>, k: nat): seq<T>
    requires k <= |s|
  {
    if k == 0 then []
    else FirstOccurrences(s, k - 1) + (if FirstIndex(s, s[k - 1]) == k - 1 then [s[k - 1]] else [])
  }

  /** The `indexOf` filter keeps the first occurrence of each element, in order: it is the set-based dedupe. */
  lemma {:induction false} FirstOccurrencesDedupe<T(!new)>(s: seq<T>, k: nat)
    requires k <= |s|
    ensures FirstOccurrences(s, k) == Dedupe(s[..k])
  {
    if k > 0 {
      FirstOccurrencesDedupe(s, k - 1);
      var x := s[k - 1];
      var pre := s[..k - 1];
      assert s[..k][..k - 1] == pre;
      assert s[..k][k - 1] == x;
      var i := FirstIndex(s, x);
      if i < k - 1 {
        assert pre[i] == x;
      } else {
        forall j | 0 <= j < k - 1 ensures pre[j] != x {
          assert pre[j] == s[j];
        }
      }
    }
  }

  /** The types the prompt asks to mix: each place type once, in order of first appearance. */
  function UniqueTypes(types: seq<string>): (r: seq<string>)
    ensures NoDuplicates(r)
    ensures forall t :: t in r <==> t in types
  {
    FirstOccurrencesDedupe(types, |types|);
    assert types[..|types|] == types;
    FirstOccurrences(types, |types|)
  }

  /** `replace(/<marker>\n?/g, '')`: every marker, with one newline right after it if there is one, removed left to right. */
  function RemoveMarker(s: string, marker: string): (r: string)
    requires |marker| > 0
    ensures |r| <= |s|
    decreases |s|
  {
    if s == [] then []
    else if StartsWith(s, marker) then
      var rest := s[|marker|..];
      RemoveMarker(if rest != [] && rest[0] == '\n' then rest[1..] else rest, marker)
    else [s[0]] + RemoveMarker(s[1..], marker)
  }

  /** The answer as parsed: code-fence markers removed, then trimmed; no code fence is left in it. */
  function CleanResponse(s: string): (r: string)
    ensures !Contains(r, "```")
  {
    var once := RemoveMarker(RemoveMarker(s, "```json"), "```");
    NoFenceLeft(RemoveMarker(s, "```json"));
    assert !Contains(once, "```");
    ContainsTrim(once, "```");
    Trim(once)
  }

  lemma {:induction false} BacktickHead(t: string)
    ensures var r := RemoveMarker(t, "```");
      r != [] && r[0] == '`' ==> t != [] && t[0] == '`'
    decreases |t|
  {
    if t != [] && !StartsWith(t, "```") {
      BacktickHead(t[1..]);
    }
  }

  lemma TwoBackticks(t: string)
    ensures var r := RemoveMarker(t, "```");
      |r| >= 2 && r[0] == '`' && r[1] == '`' ==> |t| >= 2 && t[0] == '`' && t[1] == '`'
  {
    if t != [] && !StartsWith(t, "```") {
      BacktickHead(t[1..]);
    }
  }

  /** Removing the fences leaves no fence behind, even where removal brings backticks together. */
  lemma {:induction false} NoFenceLeft(s: string)
    ensures forall j :: !OccursAt(RemoveMarker(s, "```"), "```", j)
    decreases |s|
  {
    if s != [] {
      if StartsWith(s, "```") {
        var rest := s[3..];
        NoFenceLeft(if rest != [] && rest[0] == '\n' then rest[1..] else rest);
      } else {
        var r, tail := RemoveMarker(s, "```"), RemoveMarker(s[1..], "```");
        NoFenceLeft(s[1..]);
        TwoBackticks(s[1..]);
        assert r == [s[0]] + tail;
        forall j ensures !OccursAt(r, "```", j) {
          if 1 <= j && j + 3 <= |r| {
            assert r[j..j + 3] == tail[j - 1..j + 2];
            assert !OccursAt(tail, "```", j - 1);
            assert !OccursAt(r, "```", j);
          } else if j == 0 && 3 <= |r| {
            assert r[..3] == [s[0], tail[0], tail[1]];
            assert |s| >= 2 ==> s[1..][0] == s[1] && (|s| >= 3 ==> s[1..][1] == s[2]);
            assert (|s| >= 3 && s[0] == '`' && s[1] == '`' && s[2] == '`') ==> StartsWith(s, "```") by {
              if |s| >= 3 {
                assert s[..3] == [s[0], s[1], s[2]];
              }
            }
            assert "```" == ['`', '`', '`'];
            assert !OccursAt(r, "```", 0);
          }
        }
      }
    }
  }

  lemma {:induction false} NoBacktickUntouched(s: string, marker: string)
    requires |marker| > 0 && marker[0] == '`'
    requires forall k :: 0 <= k < |s| ==> s[k] != '`'
    ensures RemoveMarker(s, marker) == s
    decreases |s|
  {
    if s != [] {
      assert !StartsWith(s, marker) by {
        assert |marker| <= |s| ==> s[..|marker|][0] == s[0];
      }
      NoBacktickUntouched(s[1..], marker);
    }
  }

  /** An answer without backticks is only trimmed. */
  lemma PlainAnswerOnlyTrimmed(s: string)
    requires forall k :: 0 <= k < |s| ==> s[k] != '`'
    ensures CleanResponse(s) == Trim(s)
  {
    NoBacktickUntouched(s, "```json");
    NoBacktickUntouched(s, "```");
  }

  /**
   * The service's answer: a failure (status 500) without an API key, when
   * the model's gateway fails (`reply` is `None`), or when the cleaned
   * answer does not parse; else the parsed itinerary.
   */
  function Respond<T>(hasKey: bool, reply: Option<string>, parse: string -> Option<T>): (r: Response<T>)
    ensures r.status == 500 <==> !hasKey || reply.None? || parse(CleanResponse(reply.value)).None?
    ensures r.success ==> reply.Some? && r.body == parse(CleanResponse(reply.value))
    ensures r.success <==> r.status == 200
  {
    if !hasKey then Failure()
    else match reply
      case None => Failure()
      case Some(text) =>
        match parse(CleanResponse(text))
        case None => Failure()
        case Some(v) => Success(v)
  }
}
