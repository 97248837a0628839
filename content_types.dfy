/**
 * The four fixed media-type lists that decide how a request body is decoded,
 * and first-match classification of a media type against an ordered choice
 * of those lists.
 */
module ContentTypes {

  const JsonTypes: seq<string> := [
    "application/json",
    "application/json-patch+json",
    "application/vnd.api+json",
    "application/csp-report"
  ]
  const FormTypes: seq<string> := ["application/x-www-form-urlencoded"]
  const MultipartTypes: seq<string> := ["multipart/form-data"]
  const TextTypes: seq<string> := ["text/plain"]

  /** The decoding strategy a media type selects; `Unrecognized` decodes nothing. */
  datatype Strategy = Json | Form | Text | Multipart | Unrecognized

  /** The media types that select a strategy. */
  function TypesOf(s: Strategy): seq<string> {
    match s
    case Json => JsonTypes
    case Form => FormTypes
    case Text => TextTypes
    case Multipart => MultipartTypes
    case Unrecognized => []
  }

  /** No media type is in two lists: at most one strategy accepts any type. */
  lemma {:induction false} ListsDisjoint(mediaType: string, s: Strategy, t: Strategy)
    requires mediaType in TypesOf(s) && mediaType in TypesOf(t)
    ensures s == t
  {
    var all := JsonTypes + FormTypes + TextTypes + MultipartTypes;
    assert forall i, j | 0 <= i < j < |all| :: all[i] != all[j] by {
      assert all[0][..16] == "application/json" && all[1][..17] == "application/json-";
      assert all[2][12] == 'v' && all[3][12] == 'c' && all[4][12] == 'x';
      assert all[5][..5] == "text/" && all[6][..10] == "multipart/";
      assert |all[0]| == 16;
    }
    match s
    case Json =>
      assert mediaType !in FormTypes && mediaType !in TextTypes && mediaType !in MultipartTypes;
    case Form =>
      assert mediaType !in JsonTypes && mediaType !in TextTypes && mediaType !in MultipartTypes;
    case Text =>
      assert mediaType !in JsonTypes && mediaType !in FormTypes && mediaType !in MultipartTypes;
    case Multipart =>
      assert mediaType !in JsonTypes && mediaType !in FormTypes && mediaType !in TextTypes;
  }

  /** Tries the lists of `order` in turn and picks the first strategy whose
      list holds the media type; `Unrecognized` when none does. */
  function FirstMatch(order: seq<Strategy>, mediaType: string): (s: Strategy)
    ensures s != Unrecognized ==> s in order && mediaType in TypesOf(s)
    ensures s == Unrecognized ==> forall t | t in order :: mediaType !in TypesOf(t)
    decreases |order|
  {
    if |order| == 0 then Unrecognized
    else if mediaType in TypesOf(order[0]) then order[0]
    else FirstMatch(order[1..], mediaType)
  }

  /** Because the lists are disjoint, the strategy picked does not depend on
      the order the lists are tried in, only on which lists are tried. */
  lemma OrderIrrelevant(order1: seq<Strategy>, order2: seq<Strategy>, mediaType: string)
    requires forall t :: t in order1 <==> t in order2
    ensures FirstMatch(order1, mediaType) == FirstMatch(order2, mediaType)
  {
    var s1, s2 := FirstMatch(order1, mediaType), FirstMatch(order2, mediaType);
    if s1 != Unrecognized && s2 != Unrecognized {
      ListsDisjoint(mediaType, s1, s2);
    }
  }
}
