/** What the data handlers of the server do to its key-value store, as
    functions of the store before the request: `setData` (POST /api/data),
    `updateData` (PUT /api/data/:key), `deleteData` (DELETE /api/data/:key)
    and `getData` (GET /api/data/:key), and the `lastUpdate` stamp that
    `saveData` writes. */
module Store {
  import opened JsonValue

  type Data = map<string, Json>

  /** Why a request leaves the store alone: 400, 404, or an exception thrown
      inside the handler, which the request adapter turns into a 500. */
  datatype Failure = KeyRequired | KeyNotFound | HandlerThrew {
    function Status(): int {
      match this
      case KeyRequired => 400
      case KeyNotFound => 404
      case HandlerThrew => 500
    }
  }

  datatype Outcome = Changed(data: Data) | Failed(failure: Failure)

  datatype Read = Value(value: Json) | ReadFailed(failure: Failure)

  /** `saveData` sets `lastUpdate` before writing the file, whether or not
      the write then succeeds. */
  function Stamped(data: Data, stamp: string): (r: Data)
    ensures r.Keys == data.Keys + {"lastUpdate"} && r["lastUpdate"] == Str(stamp)
    ensures forall k :: k in data && k != "lastUpdate" ==> r[k] == data[k]
  {
    data["lastUpdate" := Str(stamp)]
  }

  // ------------------------------------------------------------------ setData

  /** `value || req.body`: the value stored by POST /api/data. */
  function StoredValue(body: Json): (v: Json)
    ensures Truthy(v) || v == body
    ensures body.Obj? && "value" in body.fields && Truthy(body.fields["value"]) ==> v == body.fields["value"]
    ensures !(body.Obj? && "value" in body.fields && Truthy(body.fields["value"])) ==> v == body
  {
    match Prop(body, "value")
    case Found(v) => if Truthy(v) then v else body
    case _ => body
  }

  /** `const { key, value } = req.body; if (!key) 400; this.data[key] = value || req.body`;
      the assignment throws where the key cannot be made a property key. */
  function SetEntry(data: Data, body: Json): (r: Outcome)
    ensures r.Changed? <==>
      body.Obj? && "key" in body.fields && Truthy(body.fields["key"]) && !KeyThrows(body.fields["key"])
    ensures r.Failed? ==>
      r.failure == (if body.Null? || (body.Obj? && "key" in body.fields && KeyThrows(body.fields["key"]))
                    then HandlerThrew else KeyRequired)
    ensures r.Changed? ==> r.data.Keys == data.Keys + {KeyString(body.fields["key"])}
  {
    match Prop(body, "key")
    case TypeError => Failed(HandlerThrew)
    case Undefined => Failed(KeyRequired)
    case Found(key) =>
      if !Truthy(key) then Failed(KeyRequired)
      else if KeyThrows(key) then Failed(HandlerThrew)
      else Changed(data[KeyString(key) := StoredValue(body)])
  }

  /** A body without a truthy `key` is refused with 400; a null body (not an
      object at all) makes the destructuring throw. */
  lemma SetEntryRefuses(data: Data, body: Json)
    requires !body.Null?
    requires !(body.Obj? && "key" in body.fields && Truthy(body.fields["key"]))
    ensures SetEntry(data, body) == Failed(KeyRequired)
  {
  }

  /** With a truthy key, exactly that entry is written, with `value` when it
      is truthy and the whole body otherwise; every other entry is kept. */
  lemma SetEntryWrites(data: Data, body: Json)
    requires body.Obj? && "key" in body.fields && Truthy(body.fields["key"]) && !KeyThrows(body.fields["key"])
    ensures var k := KeyString(body.fields["key"]);
      var v := if "value" in body.fields && Truthy(body.fields["value"]) then body.fields["value"] else body;
      && SetEntry(data, body).Changed?
      && SetEntry(data, body).data.Keys == data.Keys + {k}
      && SetEntry(data, body).data[k] == v
      && forall other :: other in data && other != k ==> SetEntry(data, body).data[other] == data[other]
  {
  }

  /** A key that cannot be made a property key (an object with its own
      `toString`, or an array holding one) passes the `!key` test and then
      makes the assignment throw: 500, and nothing is written. */
  lemma SetEntryKeyThrows(data: Data, body: Json)
    requires body.Obj? && "key" in body.fields && KeyThrows(body.fields["key"])
    ensures SetEntry(data, body) == Failed(HandlerThrew)
  {
  }

  /** The body `{"key": {"toString": 1}, "value": 5}` is answered 500. */
  lemma {:induction false} ObjectKeyWithToString(data: Data)
    ensures SetEntry(data, Obj(map["key" := Obj(map["toString" := Num(1)]), "value" := Num(5)])) == Failed(HandlerThrew)
  {
    var key := Obj(map["toString" := Num(1)]);
    assert KeyThrows(key);
    SetEntryKeyThrows(data, Obj(map["key" := key, "value" := Num(5)]));
  }

  /** Posting the same body twice leaves the store as posting it once, also
      counting the `lastUpdate` stamp written after each. */
  lemma SetEntryIdempotent(data: Data, body: Json, stamp: string)
    requires SetEntry(data, body).Changed?
    ensures SetEntry(SetEntry(data, body).data, body) == SetEntry(data, body)
    ensures var once := Stamped(SetEntry(data, body).data, stamp);
      SetEntry(once, body).Changed? && Stamped(SetEntry(once, body).data, stamp) == once
  {
    var k := KeyString(body.fields["key"]);
    var once := Stamped(SetEntry(data, body).data, stamp);
    assert Stamped(SetEntry(once, body).data, stamp) == once by {
      assert forall x :: x in once <==> x in Stamped(SetEntry(once, body).data, stamp);
    }
  }

  // --------------------------------------------------------------- updateData

  /** How `findIndex(item => item.id === id)` ends: it throws on reaching a
      null item, or stops at the first matching index, or finds none. */
  datatype Search = Throws | Missing | FoundAt(index: nat)

  function FindById(items: seq<Json>, id: Json): (r: Search)
    ensures r.FoundAt? ==> r.index < |items| && HasId(items[r.index], id)
    ensures r.FoundAt? || r.Missing? ==>
      forall j :: 0 <= j < (if r.FoundAt? then r.index else |items|) ==> !items[j].Null? && !HasId(items[j], id)
    ensures r.Throws? ==>
      exists j :: 0 <= j < |items| && items[j].Null? && (forall l :: 0 <= l < j ==> !HasId(items[l], id))
  {
    if items == [] then Missing
    else if items[0].Null? then Throws
    else if HasId(items[0], id) then FoundAt(0)
    else
      match FindById(items[1..], id)
      case Throws => Throws
      case Missing => Missing
      case FoundAt(i) => FoundAt(i + 1)
  }

  /** The array branch of PUT: with a truthy `id`, merge the rest of the body
      into the first item with that id (nothing if none); without one,
      append the body. */
  function UpdateItems(items: seq<Json>, body: Json): (r: Option<seq<Json>>)
    ensures r.None? ==> body.Null? || exists j :: 0 <= j < |items| && items[j].Null?
    ensures r.Some? ==> r.value == items + [body] || |r.value| == |items|
    ensures r.Some? && |r.value| == |items| ==>
      (body.Obj? && "id" in body.fields &&
       forall j :: 0 <= j < |items| && r.value[j] != items[j] ==> HasId(items[j], body.fields["id"]))
  {
    match Prop(body, "id")
    case TypeError => None
    case Undefined => Some(items + [body])
    case Found(id) =>
      if !Truthy(id) then Some(items + [body])
      else match FindById(items, id)
        case Throws => None
        case Missing => Some(items)
        case FoundAt(i) => Some(items[i := Merge(items[i], Obj(OwnFields(body) - {"id"}))])
  }

  /** `updateData`: 404 for an absent key; an object (or null, whose `typeof`
      is also "object") is shallow-merged with the body; an array goes
      through UpdateItems; any other value is replaced by the body. */
  function UpdateEntry(data: Data, key: string, body: Json): (r: Outcome)
    ensures r.Failed? ==> r.failure != KeyRequired
    ensures r.Failed? && r.failure == KeyNotFound <==> key !in data
    ensures r.Failed? && r.failure == HandlerThrew ==> data[key].Arr?
  {
    if key !in data then Failed(KeyNotFound)
    else
      var current := data[key];
      if current.Obj? || current.Null? then Changed(data[key := Merge(current, body)])
      else if current.Arr? then
        match UpdateItems(current.items, body)
        case None => Failed(HandlerThrew)
        case Some(items) => Changed(data[key := Arr(items)])
      else Changed(data[key := body])
  }

  lemma UpdateAbsentKey(data: Data, key: string, body: Json)
    requires key !in data
    ensures UpdateEntry(data, key, body) == Failed(KeyNotFound)
  {
  }

  /** An update never adds or removes keys, and touches only its own key. */
  lemma UpdateKeepsOtherKeys(data: Data, key: string, body: Json)
    requires UpdateEntry(data, key, body).Changed?
    ensures UpdateEntry(data, key, body).data.Keys == data.Keys
    ensures forall other :: other in data && other != key ==> UpdateEntry(data, key, body).data[other] == data[other]
  {
  }

  /** On an object, the fields of the body win and the other fields stay. */
  lemma UpdateMergesObject(data: Data, key: string, body: Json)
    requires key in data && data[key].Obj?
    ensures var r := UpdateEntry(data, key, body);
      && r.Changed? && r.data[key].Obj?
      && r.data[key].fields.Keys == data[key].fields.Keys + OwnFields(body).Keys
      && (forall f :: f in OwnFields(body) ==> r.data[key].fields[f] == OwnFields(body)[f])
      && (forall f :: f in data[key].fields && f !in OwnFields(body) ==> r.data[key].fields[f] == data[key].fields[f])
  {
  }

  /** Merging the same body into an object twice is the same as once. */
  lemma UpdateObjectIdempotent(data: Data, key: string, body: Json)
    requires key in data && data[key].Obj?
    ensures var once := UpdateEntry(data, key, body);
      once.Changed? && UpdateEntry(once.data, key, body) == once
  {
    var once := UpdateEntry(data, key, body).data;
    var m := Merge(once[key], body);
    assert m.fields == once[key].fields;
    assert once[key := m] == once;
  }

  /** On an array, a body with a truthy id changes at most the first item
      carrying that id: that item gets the other body fields merged in, and
      when no item carries it the array stays as it was. */
  lemma UpdateArrayById(data: Data, key: string, body: Json)
    requires key in data && data[key].Arr?
    requires body.Obj? && "id" in body.fields && Truthy(body.fields["id"])
    requires !FindById(data[key].items, body.fields["id"]).Throws?
    ensures var items, id := data[key].items, body.fields["id"];
      var r := UpdateEntry(data, key, body);
      && r.Changed? && r.data[key].Arr? && |r.data[key].items| == |items|
      && ((forall j :: 0 <= j < |items| ==> !HasId(items[j], id)) ==> r.data == data)
      && forall i :: 0 <= i < |items| && HasId(items[i], id) && (forall j :: 0 <= j < i ==> !HasId(items[j], id)) ==>
           && r.data[key].items[i] == Obj(items[i].fields + (body.fields - {"id"}))
           && forall j :: 0 <= j < |items| && j != i ==> r.data[key].items[j] == items[j]
  {
    var items, id := data[key].items, body.fields["id"];
    var found := FindById(items, id);
    assert !found.Throws?;
    if found.Missing? {
      assert data[key := Arr(items)] == data;
    }
    forall i | 0 <= i < |items| && HasId(items[i], id) && (forall j :: 0 <= j < i ==> !HasId(items[j], id))
      ensures found == FoundAt(i)
    {
      assert found.FoundAt?;
      assert found.index <= i;
      assert found.index >= i;
    }
  }

  /** On an array, a body without a truthy id is appended as it is. */
  lemma UpdateArrayAppends(data: Data, key: string, body: Json)
    requires key in data && data[key].Arr? && !body.Null?
    requires !(body.Obj? && "id" in body.fields && Truthy(body.fields["id"]))
    ensures UpdateEntry(data, key, body) == Changed(data[key := Arr(data[key].items + [body])])
  {
  }

  /** A string, number or boolean is replaced by the body. */
  lemma UpdateReplacesScalar(data: Data, key: string, body: Json)
    requires key in data && (data[key].Str? || data[key].Num? || data[key].Bool?)
    ensures UpdateEntry(data, key, body) == Changed(data[key := body])
  {
  }

  // --------------------------------------------------------------- deleteData

  /** `items.filter(item => item.id !== id)`. */
  function WithoutId(items: seq<Json>, id: Json): (r: seq<Json>)
    ensures |r| <= |items|
  {
    if items == [] then []
    else if HasId(items[0], id) then WithoutId(items[1..], id)
    else [items[0]] + WithoutId(items[1..], id)
  }

  /** The filter keeps exactly the items without the id. */
  lemma {:induction false} WithoutIdMembers(items: seq<Json>, id: Json)
    ensures forall x :: x in WithoutId(items, id) <==> x in items && !HasId(x, id)
  {
    if items != [] {
      WithoutIdMembers(items[1..], id);
      assert items == [items[0]] + items[1..];
    }
  }

  /** The filter works piecewise, so the kept items keep their order. */
  lemma {:induction false} WithoutIdConcat(a: seq<Json>, b: seq<Json>, id: Json)
    ensures WithoutId(a + b, id) == WithoutId(a, id) + WithoutId(b, id)
  {
    if a != [] {
      assert (a + b)[1..] == a[1..] + b;
      WithoutIdConcat(a[1..], b, id);
    } else {
      assert a + b == b;
    }
  }

  /** Removing an id twice is the same as once. */
  lemma {:induction false} WithoutIdIdempotent(items: seq<Json>, id: Json)
    ensures WithoutId(WithoutId(items, id), id) == WithoutId(items, id)
  {
    if items != [] {
      WithoutIdIdempotent(items[1..], id);
      if !HasId(items[0], id) {
        var rest := WithoutId(items[1..], id);
        assert ([items[0]] + rest)[1..] == rest;
      }
    }
  }

  predicate NoNullItem(items: seq<Json>) {
    forall j :: 0 <= j < |items| ==> !items[j].Null?
  }

  /** `deleteData`: 404 for an absent key; a query `field` that the value has
      is removed from it; otherwise a query `id` on an array removes the
      items with that id; otherwise the whole key goes. */
  function DeleteEntry(data: Data, key: string, field: Option<string>, id: Option<string>): (r: Outcome)
    ensures r.Failed? ==> r.failure != KeyRequired
    ensures r.Failed? && r.failure == KeyNotFound <==> key !in data
    ensures r.Changed? ==> r.data.Keys == data.Keys || r.data.Keys == data.Keys - {key}
  {
    if key !in data then Failed(KeyNotFound)
    else
      var current := data[key];
      var probe := if Given(field) then Prop(current, field.value) else Undefined;
      if probe.TypeError? then Failed(HandlerThrew)
      else if probe.Found? then Changed(data[key := Obj(current.fields - {field.value})])
      else if Given(id) && current.Arr? then
        if NoNullItem(current.items) then Changed(data[key := Arr(WithoutId(current.items, Str(id.value)))])
        else Failed(HandlerThrew)
      else Changed(data - {key})
  }

  /** Deleting under an absent key is refused with 404. */
  lemma DeleteAbsentKey(data: Data, key: string, field: Option<string>, id: Option<string>)
    requires key !in data
    ensures DeleteEntry(data, key, field, id) == Failed(KeyNotFound)
  {
  }

  /** A field the object has is removed, and nothing else is. */
  lemma DeleteRemovesField(data: Data, key: string, field: string, id: Option<string>)
    requires key in data && data[key].Obj? && field in data[key].fields && field != ""
    ensures var r := DeleteEntry(data, key, Some(field), id);
      && r.Changed? && r.data.Keys == data.Keys && r.data[key].Obj?
      && r.data[key].fields.Keys == data[key].fields.Keys - {field}
      && (forall f :: f in r.data[key].fields ==> r.data[key].fields[f] == data[key].fields[f])
      && (forall other :: other in data && other != key ==> r.data[other] == data[other])
  {
    var r := DeleteEntry(data, key, Some(field), id);
    assert r.data.Keys == data.Keys by {
      assert forall x :: x in r.data <==> x in data;
    }
  }

  /** With no field to remove, an id on an array of non-null items keeps
      exactly the items without that id, in order. */
  lemma DeleteById(data: Data, key: string, field: Option<string>, id: string)
    requires key in data && data[key].Arr? && NoNullItem(data[key].items) && id != ""
    requires !(Given(field) && field.value in OwnFields(data[key]))
    ensures var r := DeleteEntry(data, key, field, Some(id));
      && r.Changed? && r.data.Keys == data.Keys
      && r.data[key] == Arr(WithoutId(data[key].items, Str(id)))
      && (forall x :: x in r.data[key].items <==> x in data[key].items && !HasId(x, Str(id)))
      && (forall other :: other in data && other != key ==> r.data[other] == data[other])
  {
    WithoutIdMembers(data[key].items, Str(id));
  }

  /** With neither a field the value has nor an id on an array, the whole key
      is removed, and nothing else. */
  lemma DeleteWholeKey(data: Data, key: string, field: Option<string>, id: Option<string>)
    requires key in data && !(Given(field) && data[key].Null?)
    requires !(Given(field) && field.value in OwnFields(data[key]))
    requires !(Given(id) && data[key].Arr?)
    ensures DeleteEntry(data, key, field, id) == Changed(data - {key})
    ensures (data - {key}).Keys == data.Keys - {key}
  {
  }

  /** A delete never adds a key and never changes another key's value. */
  lemma DeleteTouchesOnlyItsKey(data: Data, key: string, field: Option<string>, id: Option<string>)
    requires DeleteEntry(data, key, field, id).Changed?
    ensures DeleteEntry(data, key, field, id).data.Keys <= data.Keys
    ensures forall other :: other in data && other != key ==> DeleteEntry(data, key, field, id).data[other] == data[other]
  {
  }

  // ------------------------------------------------------------------ getData

  /** `getData`: 404 for an absent key; the field when one is asked for and
      present; otherwise the whole value. */
  function GetEntry(data: Data, key: string, field: Option<string>): (r: Read)
    ensures key !in data ==> r == ReadFailed(KeyNotFound)
    ensures key in data && !Given(field) ==> r == Value(data[key])
    ensures key in data && Given(field) && data[key].Obj? ==>
      r == Value(if field.value in data[key].fields then data[key].fields[field.value] else data[key])
    ensures key in data && Given(field) && data[key].Null? ==> r == ReadFailed(HandlerThrew)
    ensures key in data && Given(field) && !data[key].Obj? && !data[key].Null? ==> r == Value(data[key])
  {
    if key !in data then ReadFailed(KeyNotFound)
    else if !Given(field) then Value(data[key])
    else match Prop(data[key], field.value)
      case TypeError => ReadFailed(HandlerThrew)
      case Found(v) => Value(v)
      case Undefined => Value(data[key])
  }
}
