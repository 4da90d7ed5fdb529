/** The public grid of navigation cards: the request it sends for the page's
    query parameters, how it reads the reply, and how a card shows tags and a
    missing icon. The reply is a parameter. */
module NavigationGrid {
  import opened Wrappers
  import opened Strings
  import NavigationDataTable

  datatype Item = Item(title: string, icon: Option<string>, tagNames: seq<string>)

  /** The JSON value the reply's body parses to, as far as the decoder looks
      at it: an array of items, an object whose `data` key may hold a value,
      or anything else. */
  datatype Json = JsonArray(items: seq<Item>) | JsonObject(data: Option<Json>) | JsonOther

  datatype Answer = AnswerOk(body: Json) | AnswerNotOk | AnswerThrew

  /** `URLSearchParams` with `q`, `tag` and `sortBy`, each set only when the
      page has a non-empty value for it. */
  method BuildParams(q: Option<string>, tag: Option<string>, sortBy: Option<string>)
    returns (params: seq<(string, string)>)
    ensures forall k | 0 <= k < |params| :: params[k].0 in {"q", "tag", "sortBy"}
    ensures forall v :: ("q", v) in params <==> Truthy(q) && v == q.value
    ensures forall v :: ("tag", v) in params <==> Truthy(tag) && v == tag.value
    ensures forall v :: ("sortBy", v) in params <==> Truthy(sortBy) && v == sortBy.value
  {
    params := [];
    if Truthy(q) {
      params := params + [("q", q.value)];
    }
    if Truthy(tag) {
      params := params + [("tag", tag.value)];
    }
    if Truthy(sortBy) {
      params := params + [("sortBy", sortBy.value)];
    }
  }

  /** The response shapes: `{ data: [...] }`, a bare array, anything else. */
  function Decode(body: Json): (items: seq<Item>)
    ensures body.JsonArray? ==> items == body.items
    ensures body.JsonObject? && body.data.Some? && body.data.value.JsonArray? ==> items == body.data.value.items
    ensures !body.JsonArray? && !(body.JsonObject? && body.data.Some? && body.data.value.JsonArray?) ==> items == []
  {
    match body
    case JsonObject(Some(JsonArray(items))) => items
    case JsonArray(items) => items
    case _ => []
  }

  /** The paginated shape and the older bare-array shape give the same items. */
  lemma DecodeShapesAgree(items: seq<Item>)
    ensures Decode(JsonObject(Some(JsonArray(items)))) == Decode(JsonArray(items)) == items
  {
  }

  class NavigationGrid {
    var items: seq<Item>
    var loading: bool

    constructor ()
      ensures items == [] && loading
    {
      items := [];
      loading := true;
    }

    /** `fetchData`: a non-ok status and a thrown error both leave the grid
        empty; loading ends whatever happens. */
    method FetchData(answer: Answer)
      modifies this
      ensures !loading
      ensures answer.AnswerOk? ==> items == Decode(answer.body)
      ensures !answer.AnswerOk? ==> items == []
    {
      match answer {
        case AnswerOk(body) =>
          if body.JsonObject? && body.data.Some? && body.data.value.JsonArray? {
            items := body.data.value.items;
          } else if body.JsonArray? {
            items := body.items;
          } else {
            items := [];
          }
        case AnswerNotOk =>
          items := [];
        case AnswerThrew =>
          items := [];
      }
      loading := false;
    }
  }

  /** The card's tag badges: the first three, as in the admin table. */
  function CardTags(item: Item): (r: seq<string>)
    ensures |r| <= NavigationDataTable.TagLimit && r <= item.tagNames
  {
    NavigationDataTable.FirstTags(item.tagNames)
  }

  /** `toUpperCase` on a single character, for the ASCII letters. */
  function UpperAscii(c: char): (u: char)
    ensures 'a' <= c <= 'z' ==> 'A' <= u <= 'Z' && u as int == c as int - 32
    ensures !('a' <= c <= 'z') ==> u == c
  {
    if 'a' <= c <= 'z' then (c as int - 32) as char else c
  }

  /** `title.charAt(0).toUpperCase()`, shown when the item has no icon. */
  function InitialLetter(title: string): (r: string)
    ensures title == [] ==> r == []
    ensures title != [] ==> r == [UpperAscii(title[0])]
  {
    if title == [] then [] else [UpperAscii(title[0])]
  }

  /** The placeholder appears exactly when the icon is empty or absent. */
  function Placeholder(item: Item): (r: Option<string>)
    ensures r.Some? <==> !Truthy(item.icon)
    ensures r.Some? ==> r.value == InitialLetter(item.title)
  {
    if Truthy(item.icon) then None else Some(InitialLetter(item.title))
  }
}
