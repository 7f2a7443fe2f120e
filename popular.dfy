/** The community itineraries page and its filter by vibe. */
module Popular {
  import opened Wrappers
  import opened Seqs

  datatype CommunityItinerary = CommunityItinerary(
    id: string, title: string, heroImage: string, days: int, location: string,
    author: string, likes: int, vibe: Option<string>)

  const MockItineraries: seq<CommunityItinerary> := [
    CommunityItinerary("1", "3 Days in Tokyo", "https://images.unsplash.com/photo-1540959733332-eab4deabeeaf?w=800", 3, "Tokyo, Japan", "Travel Explorer", 234, Some("cute")),
    CommunityItinerary("2", "Japan Food Lover Route", "https://images.unsplash.com/photo-1528360983277-13d401cdc186?w=800", 7, "Tokyo, Osaka, Kyoto", "Foodie Traveler", 445, Some("fun")),
    CommunityItinerary("3", "Kyoto Culture Path", "https://images.unsplash.com/photo-1493976040374-85c8e12f0c0e?w=800", 4, "Kyoto, Japan", "Culture Enthusiast", 332, Some("chill")),
    CommunityItinerary("4", "Hidden Gems of Osaka", "https://images.unsplash.com/photo-1590559899731-a382839e5549?w=800", 2, "Osaka, Japan", "Local Guide", 189, Some("mysterious")),
    CommunityItinerary("5", "Romantic Paris Getaway", "https://images.unsplash.com/photo-1502602898657-3e91760cbb34?w=800", 5, "Paris, France", "Romance Planner", 567, Some("romantic")),
    CommunityItinerary("6", "Luxury Dubai Experience", "https://images.unsplash.com/photo-1512453979798-5ea266f8880c?w=800", 4, "Dubai, UAE", "Luxury Traveler", 423, Some("fancy"))]

  const Vibes: seq<string> := ["all", "fun", "mysterious", "chill", "vibe", "cute", "fancy", "romantic"]

  /** The list for the active vibe: everything under `all`, else the itineraries of that vibe, in list order. */
  function FilteredItineraries(all: seq<CommunityItinerary>, activeVibe: string): (r: seq<CommunityItinerary>)
    ensures activeVibe == "all" ==> r == all
    ensures activeVibe != "all" ==> forall it :: it in r <==> it in all && it.vibe == Some(activeVibe)
    ensures |r| <= |all|
  {
    if activeVibe == "all" then all else Filter(all, (it: CommunityItinerary) => it.vibe == Some(activeVibe))
  }

  /** Whatever the vibe, the list shown is drawn from the full list. */
  lemma FilteredIsSubset(all: seq<CommunityItinerary>, activeVibe: string)
    ensures forall it :: it in FilteredItineraries(all, activeVibe) ==> it in all
  {
  }

  /** An itinerary without a vibe shows only under `all`. */
  lemma NoVibeOnlyUnderAll(all: seq<CommunityItinerary>, activeVibe: string, it: CommunityItinerary)
    requires it in all && it.vibe.None?
    ensures it in FilteredItineraries(all, activeVibe) <==> activeVibe == "all"
  {
  }

  /** Filtering keeps the list order: the kept itineraries are the full list with the others taken out. */
  lemma {:induction false} FilterKeepsOrder(all: seq<CommunityItinerary>, vibe: string, k: CommunityItinerary)
    requires vibe != "all"
    ensures FilteredItineraries(all + [k], vibe) ==
      FilteredItineraries(all, vibe) + (if k.vibe == Some(vibe) then [k] else [])
  {
    FilterAppend(all, [k], (it: CommunityItinerary) => it.vibe == Some(vibe));
  }
}
