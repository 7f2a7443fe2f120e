/**
 * The pieces of the planning prompt that both itinerary services build the
 * same way: the destination, the party described in words, and the
 * estimated costs the answer is asked to carry.
 */
module TripPrompt {
  import opened Wrappers
  import opened Text

  /** The search parameters a service receives; the counts are whole numbers. */
  datatype RequestParams = RequestParams(destination: string, days: int, adults: nat, children: nat, infants: nat)

  /** `searchParams?.destination || 'your destination'`. */
  function DestinationText(params: Option<RequestParams>): (r: string)
    ensures r != ""
    ensures params.Some? && params.value.destination != "" ==> r == params.value.destination
  {
    if params.Some? && params.value.destination != "" then params.value.destination else "your destination"
  }

  /** A count and its noun, the plural ending added only for more than one. */
  function Counted(n: nat, noun: string, plural: string): (r: string)
    ensures |NatToString(n)| < |r| && r[..|NatToString(n)|] == NatToString(n) && r[|NatToString(n)|] == ' '
  {
    NatToString(n) + " " + noun + (if n > 1 then plural else "")
  }

  /** The party in words: adults always, then children and infants only when there are any. */
  function Travelers(params: Option<RequestParams>): (r: string)
    ensures params.None? ==> r == "2 travelers"
  {
    match params
    case None => "2 travelers"
    case Some(p) =>
      Counted(p.adults, "adult", "s")
        + (if p.children > 0 then ", " + Counted(p.children, "child", "ren") else "")
        + (if p.infants > 0 then ", " + Counted(p.infants, "infant", "s") else "")
  }

  /** The parts the party phrase is made of, in order. */
  function TravelerParts(p: RequestParams): seq<string> {
    [Counted(p.adults, "adult", "s")]
      + (if p.children > 0 then [Counted(p.children, "child", "ren")] else [])
      + (if p.infants > 0 then [Counted(p.infants, "infant", "s")] else [])
  }

  lemma NoComma(n: nat, noun: string, plural: string)
    requires forall j :: 0 <= j < |noun| ==> noun[j] != ','
    requires forall j :: 0 <= j < |plural| ==> plural[j] != ','
    ensures forall j :: 0 <= j < |Counted(n, noun, plural)| ==> Counted(n, noun, plural)[j] != ','
  {
    var digits := NatToString(n);
    var tail := if n > 1 then plural else "";
    assert Counted(n, noun, plural) == digits + " " + noun + tail;
    forall j | 0 <= j < |Counted(n, noun, plural)| ensures Counted(n, noun, plural)[j] != ',' {
      if j < |digits| {
        assert IsDigit(digits[j]);
      } else if j == |digits| {
      } else if j < |digits| + 1 + |noun| {
        assert Counted(n, noun, plural)[j] == noun[j - |digits| - 1];
      } else {
        assert Counted(n, noun, plural)[j] == tail[j - |digits| - 1 - |noun|];
      }
    }
  }

  lemma TravelersIsJoin(p: RequestParams)
    ensures Join(TravelerParts(p), ", ") == Travelers(Some(p))
  {
    var parts := TravelerParts(p);
    var a, c, i := Counted(p.adults, "adult", "s"), Counted(p.children, "child", "ren"), Counted(p.infants, "infant", "s");
    var t := Travelers(Some(p));
    if p.children > 0 && p.infants > 0 {
      assert parts == [a, c, i];
      assert t == a + ", " + c + ", " + i;
      JoinThree(a, c, i);
    } else if p.children > 0 {
      assert parts == [a, c];
      assert t == a + ", " + c + "";
      JoinTwo(a, c);
    } else if p.infants > 0 {
      assert parts == [a, i];
      assert t == a + "" + ", " + i;
      JoinTwo(a, i);
    } else {
      assert parts == [a];
      assert t == a + "" + "";
    }
  }

  lemma JoinTwo(a: string, c: string)
    ensures Join([a, c], ", ") == a + ", " + c
    ensures a + ", " + c + "" == a + ", " + c && a + "" + ", " + c == a + ", " + c
  {
    assert [a, c][1..] == [c];
  }

  lemma JoinThree(a: string, c: string, i: string)
    ensures Join([a, c, i], ", ") == a + ", " + c + ", " + i
    ensures a + ", " + (c + ", " + i) == a + ", " + c + ", " + i
  {
    assert [a, c, i][1..] == [c, i] && [c, i][1..] == [i];
    assert Join([c, i], ", ") == c + ", " + i;
  }

  lemma PartsHaveNoComma(p: RequestParams)
    ensures forall k, j :: 0 <= k < |TravelerParts(p)| && 0 <= j < |TravelerParts(p)[k]| ==> TravelerParts(p)[k][j] != ','
  {
    NoComma(p.adults, "adult", "s");
    NoComma(p.children, "child", "ren");
    NoComma(p.infants, "infant", "s");
  }

  /**
   * The phrase reads back into its parts: split at ", " it gives the adult
   * part, then a children part exactly when there are children, then an
   * infant part exactly when there are infants.
   */
  lemma TravelersSplit(p: RequestParams)
    ensures Split(Travelers(Some(p)), ", ") == TravelerParts(p)
    ensures |TravelerParts(p)| == 1 + (if p.children > 0 then 1 else 0) + (if p.infants > 0 then 1 else 0)
    ensures TravelerParts(p)[0] == Counted(p.adults, "adult", "s")
  {
    TravelersIsJoin(p);
    PartsHaveNoComma(p);
    SplitJoin(TravelerParts(p), ", ");
  }

  /** A count in the phrase reads back as the number it was made from. */
  lemma CountReadsBack(n: nat, noun: string, plural: string)
    ensures DigitsValue(Counted(n, noun, plural)[..|NatToString(n)|]) == n
  {
    assert Counted(n, noun, plural)[..|NatToString(n)|] == NatToString(n);
    NatToStringRoundTrip(n);
  }

  datatype EstimatedCosts = EstimatedCosts(dailyBudget: int, totalBudget: int)

  /** The costs the prompt's answer template carries: 150 a day. */
  function CostsFor(days: int): (r: EstimatedCosts)
    ensures r.dailyBudget == 150 && r.totalBudget == days * r.dailyBudget
  {
    EstimatedCosts(150, days * 150)
  }

  /** What a service answers: the parsed value with status 200, or a failure with status 500. */
  datatype Response<T> = Response(status: int, success: bool, body: Option<T>)

  function Failure<T>(): (r: Response<T>)
    ensures r.status == 500 && !r.success && r.body.None?
  {
    Response(500, false, None)
  }

  function Success<T>(value: T): (r: Response<T>)
    ensures r.status == 200 && r.success && r.body == Some(value)
  {
    Response(200, true, Some(value))
  }
}
