/**
  The property service: the query-parameter builder of `getProperties`, the
  favourites list that `toggleFavorite` edits after a successful POST, the
  contact request body, and the fallbacks of the list responses. Requests go
  to a log; each HTTP outcome is a parameter.
*/
module PropertyService {
  import opened Wrappers
  import opened JsString
  import opened Seqs
  import PropertyFilter

  type Listing = PropertyFilter.Listing

  /** The service's base URL: the literal text, as the source writes it. */
  const ApiUrl := "environment.apiUrl"

  const DefaultContactMessage := "I am interested in this property."

  // ---- query parameters ----

  /** A value of the search-parameters object, as JavaScript sees it. */
  datatype ParamValue =
    | Undefined
    | Null
    | Number(n: int)
    | Boolean(b: bool)
    | Text(s: string)
    | List(items: seq<string>)

  /** One own key of the search-parameters object, in `Object.keys` order. */
  datatype Entry = Entry(key: string, value: ParamValue)

  /** The keys of an object are distinct. */
  predicate KeysDistinct(es: seq<Entry>) {
    forall i, j :: 0 <= i < j < |es| ==> es[i].key != es[j].key
  }

  function KeySet(es: seq<Entry>): set<string> {
    set n | 0 <= n < |es| :: es[n].key
  }

  /** `HttpParams`: each key once, in first-insertion order, with its values. */
  type Params = seq<(string, seq<string>)>

  /** `params.getAll(key)`: None when the key is absent. */
  function GetAll(ps: Params, key: string): Option<seq<string>> {
    if ps == [] then None
    else if ps[0].0 == key then Some(ps[0].1)
    else GetAll(ps[1..], key)
  }

  /** `params.append(key, v)`: one more value for the key; a new key goes last. */
  function AppendParam(ps: Params, key: string, v: string): (r: Params)
    ensures GetAll(r, key) == Some(GetAll(ps, key).GetOr([]) + [v])
    ensures forall k :: k != key ==> GetAll(r, k) == GetAll(ps, k)
    ensures GetAll(ps, key).None? ==> r == ps + [(key, [v])]
  {
    if ps == [] then
      assert GetAll(ps, key).GetOr([]) + [v] == [v];
      [(key, [v])]
    else if ps[0].0 == key then [(key, ps[0].1 + [v])] + ps[1..]
    else
      var rest := AppendParam(ps[1..], key, v);
      var r := [ps[0]] + rest;
      assert r[1..] == rest;
      assert ps == [ps[0]] + ps[1..];
      r
  }

  /** `params.set(key, v)`: the key's values become exactly `[v]`; a new key goes last. */
  function SetParam(ps: Params, key: string, v: string): (r: Params)
    ensures GetAll(r, key) == Some([v])
    ensures forall k :: k != key ==> GetAll(r, k) == GetAll(ps, k)
    ensures GetAll(ps, key).None? ==> r == ps + [(key, [v])]
  {
    if ps == [] then [(key, [v])]
    else if ps[0].0 == key then [(key, [v])] + ps[1..]
    else
      var rest := SetParam(ps[1..], key, v);
      var r := [ps[0]] + rest;
      assert r[1..] == rest;
      assert ps == [ps[0]] + ps[1..];
      r
  }

  /** `value.toString()` for a scalar. */
  function ScalarText(v: ParamValue): (r: string)
    requires !v.Undefined? && !v.Null? && !v.List?
    ensures v.Text? ==> r == v.s
    ensures v.Boolean? ==> (r == "true" <==> v.b) && (r == "false" <==> !v.b)
    ensures v.Number? ==> r != [] && (r[0] == '-' <==> v.n < 0)
    ensures v.Number? && v.n >= 0 ==> ParseInt(r) == Some(v.n)
  {
    match v
    case Number(n) =>
      if n >= 0 then
        assert NatToString(n) + [] == NatToString(n);
        ParseIntOfNatToStringThen(n, []);
        IntToString(n)
      else IntToString(n)
    case Boolean(b) => if b then "true" else "false"
    case Text(s) => s
  }

  /** The values one key contributes: none for undefined/null, each item of an array, else one. */
  function Contributed(v: ParamValue): (r: seq<string>)
    ensures v.Undefined? || v.Null? ==> r == []
    ensures v.List? ==> r == v.items
    ensures !v.Undefined? && !v.Null? && !v.List? ==> r == [ScalarText(v)]
  {
    match v
    case Undefined => []
    case Null => []
    case List(items) => items
    case _ => [ScalarText(v)]
  }

  /** The parameters of `es`: a key with at least one value, in key order. */
  function ParamsOf(es: seq<Entry>): Params {
    if es == [] then []
    else
      var last := es[|es| - 1];
      ParamsOf(es[..|es| - 1]) + (if Contributed(last.value) == [] then [] else [(last.key, Contributed(last.value))])
  }

  lemma {:induction false} GetAllConcat(a: Params, b: Params, k: string)
    ensures GetAll(a + b, k) == if GetAll(a, k).Some? then GetAll(a, k) else GetAll(b, k)
    decreases |a|
  {
    if a == [] {
      assert a + b == b;
    } else {
      assert (a + b)[0] == a[0];
      if a[0].0 != k {
        assert (a + b)[1..] == a[1..] + b;
        GetAllConcat(a[1..], b, k);
      }
    }
  }

  /** Present when non-empty. */
  function NonEmpty(xs: seq<string>): (r: Option<seq<string>>)
    ensures r.None? <==> xs == []
  {
    if xs == [] then None else Some(xs)
  }

  /**
    With distinct keys, every key's values are exactly what its value
    contributes (an array's items in order, one text for a scalar, nothing
    for undefined or null), and no other key appears.
  */
  lemma {:induction false} ParamsOfValues(es: seq<Entry>, k: string)
    requires KeysDistinct(es)
    ensures k !in KeySet(es) ==> GetAll(ParamsOf(es), k) == None
    ensures forall j :: 0 <= j < |es| && es[j].key == k ==> GetAll(ParamsOf(es), k) == NonEmpty(Contributed(es[j].value))
    decreases |es|
  {
    if es != [] {
      var init := es[..|es| - 1];
      var last := es[|es| - 1];
      var tail: Params := if Contributed(last.value) == [] then [] else [(last.key, Contributed(last.value))];
      assert KeysDistinct(init);
      ParamsOfValues(init, k);
      GetAllConcat(ParamsOf(init), tail, k);
      forall j | 0 <= j < |es| && es[j].key == k
        ensures GetAll(ParamsOf(es), k) == NonEmpty(Contributed(es[j].value))
      {
        if j == |es| - 1 {
          assert k !in KeySet(init) by {
            forall m | 0 <= m < |init|
              ensures init[m].key != k
            {
              assert es[m].key != es[j].key;
            }
          }
        } else {
          assert init[j].key == k;
          assert last.key != k;
        }
      }
    }
  }

  /** Zero and false are sent, not skipped; an empty array sends nothing. */
  lemma FalsyValuesKept()
    ensures Contributed(Number(0)) == ["0"]
    ensures Contributed(Boolean(false)) == ["false"]
    ensures Contributed(Text("")) == [""]
    ensures Contributed(List([])) == []
  {
    assert NatToString(0) == "0";
  }

  /** The parameter-building loop of `getProperties`. */
  method BuildParams(searchParams: Option<seq<Entry>>) returns (params: Params)
    requires searchParams.Some? ==> KeysDistinct(searchParams.value)
    ensures searchParams.None? ==> params == []
    ensures searchParams.Some? ==> params == ParamsOf(searchParams.value)
  {
    params := [];
    if searchParams.Some? {
      var es := searchParams.value;
      var i := 0;
      while i < |es|
        invariant 0 <= i <= |es|
        invariant params == ParamsOf(es[..i])
      {
        assert es[..i + 1][..i] == es[..i];
        assert es[i].key !in KeySet(es[..i]) by {
          forall m | 0 <= m < i
            ensures es[..i][m].key != es[i].key
          {
          }
        }
        ParamsOfValues(es[..i], es[i].key);
        params := AddEntry(params, es[i]);
        i := i + 1;
      }
      assert es[..i] == es;
    }
  }

  /** One key of the loop: nothing for undefined/null, `append` per array item, else `set`. */
  method AddEntry(params: Params, e: Entry) returns (r: Params)
    requires GetAll(params, e.key).None?
    ensures r == params + (if Contributed(e.value) == [] then [] else [(e.key, Contributed(e.value))])
  {
    r := params;
    if e.value.Undefined? || e.value.Null? {
    } else if e.value.List? {
      var items := e.value.items;
      var j := 0;
      while j < |items|
        invariant 0 <= j <= |items|
        invariant r == params + (if j == 0 then [] else [(e.key, items[..j])])
      {
        if j > 0 {
          AppendAfterLast(params, e.key, items[..j], items[j]);
        } else {
          assert items[..1] == [items[0]];
        }
        r := AppendParam(r, e.key, items[j]);
        assert items[..j + 1] == items[..j] + [items[j]];
        j := j + 1;
      }
      assert items[..j] == items;
    } else {
      r := SetParam(r, e.key, ScalarText(e.value));
    }
  }

  /** Appending under the key of the last entry, when the key appears nowhere before, extends that entry. */
  lemma {:induction false} AppendAfterLast(p: Params, key: string, vs: seq<string>, v: string)
    requires GetAll(p, key).None?
    ensures AppendParam(p + [(key, vs)], key, v) == p + [(key, vs + [v])]
    decreases |p|
  {
    if p != [] {
      AppendAfterLast(p[1..], key, vs, v);
      assert (p + [(key, vs)])[1..] == p[1..] + [(key, vs)];
    }
  }

  // ---- responses ----

  /** `response?.properties || []`, or the rethrown error. */
  function PropertiesFrom(response: Result<Option<seq<Listing>>, string>): (r: Result<seq<Listing>, string>)
    ensures response.Err? <==> r.Err?
    ensures response.Err? ==> r.error == response.error
    ensures response == Ok(None) ==> r == Ok([])
    ensures response.Ok? && response.value.Some? ==> r == Ok(response.value.value)
  {
    match response
    case Err(e) => Err(e)
    case Ok(properties) => Ok(properties.GetOr([]))
  }

  /** `getFavorites`: the list, or [] when it is missing or the request failed. */
  function FavoritesFrom(response: Result<Option<seq<Listing>>, string>): (r: seq<Listing>)
    ensures response.Ok? && response.value.Some? ==> r == response.value.value
    ensures response.Err? || response == Ok(None) ==> r == []
  {
    match response
    case Err(_) => []
    case Ok(properties) => properties.GetOr([])
  }

  // ---- favourites and contact requests ----

  /** The favourites after a successful toggle: the first occurrence removed, or the id appended. */
  function FavoriteToggled(favorites: seq<string>, id: string): (r: seq<string>)
    ensures id !in favorites ==> r == favorites + [id]
    ensures id in favorites ==>
      var i := IndexOf(favorites, id);
      r == favorites[..i] + favorites[i + 1..] && id !in favorites[..i]
  {
    var index := IndexOf(favorites, id);
    if index > -1 then SpliceOne(favorites, index) else favorites + [id]
  }

  /** On a list without duplicates a toggle flips the id's membership and touches no other id. */
  lemma ToggleFlipsMembership(favorites: seq<string>, id: string)
    requires Distinct(favorites)
    ensures Distinct(FavoriteToggled(favorites, id))
    ensures id in FavoriteToggled(favorites, id) <==> id !in favorites
    ensures forall x :: x != id ==> (x in FavoriteToggled(favorites, id) <==> x in favorites)
  {
    if id in favorites {
      var i := IndexOf(favorites, id);
      RemoveAtMembers(favorites, i);
      RemoveAtDistinct(favorites, i);
    } else {
      AppendDistinct(favorites, id);
    }
  }

  lemma AppendDistinct(s: seq<string>, x: string)
    requires Distinct(s) && x !in s
    ensures Distinct(s + [x])
  {
  }

  /** Adding an absent id and toggling it again gives the original list back. */
  lemma ToggleTwiceFromAbsent(favorites: seq<string>, id: string)
    requires id !in favorites
    ensures FavoriteToggled(FavoriteToggled(favorites, id), id) == favorites
  {
    var once := favorites + [id];
    assert IndexOf(once, id) == |favorites| by {
      assert once[|favorites|] == id && once[..|favorites|] == favorites;
    }
    assert once[..|favorites|] == favorites;
  }

  /**
    Removing a present id and toggling it again keeps the same ids but moves
    that id to the end: the list is restored only up to order.
  */
  lemma ToggleTwiceFromPresent(favorites: seq<string>, id: string)
    requires Distinct(favorites) && id in favorites
    ensures FavoriteToggled(FavoriteToggled(favorites, id), id) == FavoriteToggled(favorites, id) + [id]
    ensures multiset(FavoriteToggled(FavoriteToggled(favorites, id), id)) == multiset(favorites)
  {
    var i := IndexOf(favorites, id);
    var once := favorites[..i] + favorites[i + 1..];
    assert FavoriteToggled(once, id) == once + [id] by {
      RemoveAtMembers(favorites, i);
    }
    assert multiset(once + [id]) == multiset(favorites) by {
      assert favorites == favorites[..i] + [id] + favorites[i + 1..];
    }
  }

  datatype ContactBody = ContactBody(propertyId: string, message: string)

  /** The body of `sendContactRequest`: a missing or empty message becomes the default. */
  function ContactBodyFor(propertyId: string, message: Option<string>): (b: ContactBody)
    ensures b.propertyId == propertyId
    ensures message.Some? && message.value != "" ==> b.message == message.value
    ensures message.None? || message.value == "" ==> b.message == DefaultContactMessage
  {
    ContactBody(propertyId, if message.Some? && message.value != "" then message.value else DefaultContactMessage)
  }

  datatype ServiceRequest =
    | PropertiesQuery(url: string, params: Params)
    | PostFavorite(url: string)
    | PostContactRequest(url: string, body: ContactBody)
    | FavoritesQuery(url: string)

  class PropertyService {
    /** The favourites subject's current value. */
    var favorites: seq<string>
    var requests: seq<ServiceRequest>

    constructor ()
      ensures favorites == [] && requests == []
    {
      favorites := [];
      requests := [];
    }

    /** `getProperties`: builds the parameters, issues the GET and answers from its response. */
    method GetProperties(searchParams: Option<seq<Entry>>, response: Result<Option<seq<Listing>>, string>)
      returns (r: Result<seq<Listing>, string>)
      modifies this
      requires searchParams.Some? ==> KeysDistinct(searchParams.value)
      ensures requests == old(requests) + [PropertiesQuery(ApiUrl + "/properties",
        if searchParams.Some? then ParamsOf(searchParams.value) else [])]
      ensures r == PropertiesFrom(response)
      ensures favorites == old(favorites)
    {
      var params := BuildParams(searchParams);
      requests := requests + [PropertiesQuery(ApiUrl + "/properties", params)];
      r := PropertiesFrom(response);
    }

    /** `toggleFavorite`: the POST first; only its success edits the list, its failure is rethrown. */
    method ToggleFavorite(propertyId: string, post: Result<(), string>) returns (r: Result<(), string>)
      modifies this
      ensures requests == old(requests) + [PostFavorite(ApiUrl + "/properties/" + propertyId + "/favorite")]
      ensures post.Err? ==> r == post && favorites == old(favorites)
      ensures post.Ok? ==> r.Ok? && favorites == FavoriteToggled(old(favorites), propertyId)
    {
      requests := requests + [PostFavorite(ApiUrl + "/properties/" + propertyId + "/favorite")];
      if post.Err? {
        return post;
      }
      var index := IndexOf(favorites, propertyId);
      if index > -1 {
        favorites := SpliceOne(favorites, index);
      } else {
        favorites := favorites + [propertyId];
      }
      r := Ok(());
    }

    /** `sendContactRequest`: POSTs the body; a failure is rethrown. */
    method SendContactRequest(propertyId: string, message: Option<string>, post: Result<(), string>)
      returns (r: Result<(), string>)
      modifies this
      ensures requests == old(requests) + [PostContactRequest(ApiUrl + "/requests", ContactBodyFor(propertyId, message))]
      ensures r == post && favorites == old(favorites)
    {
      requests := requests + [PostContactRequest(ApiUrl + "/requests", ContactBodyFor(propertyId, message))];
      r := post;
    }

    /** `getFavorites`: issues the GET; a failure is swallowed into []. */
    method GetFavorites(response: Result<Option<seq<Listing>>, string>) returns (r: seq<Listing>)
      modifies this
      ensures requests == old(requests) + [FavoritesQuery(ApiUrl + "/properties/favorites")]
      ensures r == FavoritesFrom(response)
      ensures favorites == old(favorites)
    {
      requests := requests + [FavoritesQuery(ApiUrl + "/properties/favorites")];
      r := FavoritesFrom(response);
    }
  }
}
