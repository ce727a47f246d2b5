/** The "about" page (backend/app/routers/about.py): a collection that holds
    at most one document, read with defaults and updated by a shallow
    `$set` merge or by per-section upserts. */
module About {
  import opened Common

  const IdKey := "_id"
  const UpdatedAtKey := "updated_at"

  /** Raised by MongoDB when a `$set` would change a document's `_id`; the
      handler does not catch it, so the client sees a server error. */
  const ImmutableIdChanged := HttpError(500, "Internal Server Error")

  /** The four list-valued sections that have their own endpoints. */
  datatype Section = TeamMembers | Timeline | Values | Stats
  {
    function Key(): (k: string)
      ensures k != IdKey && k != UpdatedAtKey
    {
      match this
      case TeamMembers => "team_members"
      case Timeline => "timeline"
      case Values => "values"
      case Stats => "stats"
    }
  }

  /** What `get_about` returns while no document exists. */
  function DefaultAbout(): (d: Document)
    ensures forall s: Section :: s.Key() in d && d[s.Key()] == List([])
    ensures "mission" in d && d["mission"] == Object(map["title" := Str(""), "content" := Str("")])
    ensures "contact" in d && d["contact"] == Object(map[])
    ensures IdKey !in d && UpdatedAtKey !in d
  {
    map[
      "team_members" := List([]),
      "timeline" := List([]),
      "values" := List([]),
      "stats" := List([]),
      "mission" := Object(map["title" := Str(""), "content" := Str("")]),
      "contact" := Object(map[])
    ]
  }

  /** The invariant of the collection: at most one document, and every
      stored document has an `_id`. */
  predicate Singleton(docs: seq<Document>)
  {
    |docs| <= 1 && forall d :: d in docs ==> IdKey in d
  }

  /** `get_about` as a function of the stored documents. */
  function AboutView(docs: seq<Document>): (r: Document)
    ensures docs == [] ==> r == DefaultAbout()
    ensures docs != [] ==> IdKey !in r && r.Keys == docs[0].Keys - {IdKey}
    ensures docs != [] ==> forall k :: k in r ==> r[k] == docs[0][k]
  {
    if docs == [] then DefaultAbout() else docs[0] - {IdKey}
  }

  /** A section getter as a function of the stored documents: the stored
      value, or an empty list when there is no document or no such key. */
  function SectionView(docs: seq<Document>, s: Section): (r: Value)
    ensures docs != [] && s.Key() in docs[0] ==> r == docs[0][s.Key()]
    ensures docs == [] || s.Key() !in docs[0] ==> r == List([])
  {
    if docs != [] && s.Key() in docs[0] then docs[0][s.Key()] else List([])
  }

  /** `update_one({}, {"$set": fields}, upsert=True)`: sets the fields of
      the first document, or inserts them under a new `_id`. */
  function Upsert(docs: seq<Document>, fields: Document, newId: ObjectId): (r: seq<Document>)
    ensures |r| == if docs == [] then 1 else |docs|
    ensures forall k :: k in fields && k != IdKey ==> k in r[0] && r[0][k] == fields[k]
    ensures docs == [] ==> r[0].Keys == fields.Keys + {IdKey} && r[0][IdKey] == Oid(newId)
    ensures docs != [] ==> r[0].Keys == docs[0].Keys + fields.Keys && r[1..] == docs[1..]
    ensures docs != [] ==> forall k :: k in docs[0] && k !in fields ==> r[0][k] == docs[0][k]
  {
    if docs == [] then [fields[IdKey := Oid(newId)]] else [docs[0] + fields] + docs[1..]
  }

  /** The fields a section setter writes. */
  function SectionFields(s: Section, items: seq<Value>, now: int): (f: Document)
    ensures f.Keys == {s.Key(), UpdatedAtKey}
    ensures f[s.Key()] == List(items) && f[UpdatedAtKey] == Time(now)
  {
    map[s.Key() := List(items), UpdatedAtKey := Time(now)]
  }

  /** `update_about` as a function of the stored documents: stamp
      `updated_at` into the payload, then `$set` it on the existing document
      or insert it. */
  function MergeAbout(docs: seq<Document>, payload: Document, now: int, newId: ObjectId): (r: Result<seq<Document>, HttpError>)
    ensures docs == [] ==> r.Ok?
    ensures r.Err? ==> r.error == ImmutableIdChanged && docs != [] && IdKey in payload
    ensures r.Ok? ==> |r.value| == if docs == [] then 1 else |docs|
    ensures r.Ok? ==> UpdatedAtKey in r.value[0] && r.value[0][UpdatedAtKey] == Time(now)
    ensures r.Ok? ==> forall k :: k in payload && k != UpdatedAtKey ==> k in r.value[0] && r.value[0][k] == payload[k]
    ensures docs == [] ==> r.value[0].Keys == payload.Keys + {UpdatedAtKey, IdKey}
    ensures docs == [] && IdKey !in payload ==> r.value[0][IdKey] == Oid(newId)
    ensures docs != [] && r.Ok? ==> r.value[0].Keys == docs[0].Keys + payload.Keys + {UpdatedAtKey}
    ensures docs != [] && r.Ok? ==> r.value[1..] == docs[1..]
    ensures docs != [] && r.Ok? ==> forall k :: k in docs[0] && k !in payload && k != UpdatedAtKey ==> r.value[0][k] == docs[0][k]
  {
    var data := payload[UpdatedAtKey := Time(now)];
    if docs == [] then
      Ok([if IdKey in data then data else data[IdKey := Oid(newId)]])
    else if IdKey in data && (IdKey !in docs[0] || data[IdKey] != docs[0][IdKey]) then
      Err(ImmutableIdChanged)
    else
      Ok([docs[0] + data] + docs[1..])
  }

  /** The about collection. */
  class AboutCollection {
    var docs: seq<Document>

    ghost predicate Valid()
      reads this
    {
      Singleton(docs)
    }

    constructor (docs: seq<Document>)
      requires Singleton(docs)
      ensures Valid() && this.docs == docs
    {
      this.docs := docs;
    }

    /** `get_about`. */
    method GetAbout() returns (r: Document)
      requires Valid()
      ensures r == AboutView(docs)
    {
      if docs == [] {
        return DefaultAbout();
      }
      r := docs[0];
      r := r - {IdKey};
    }

    /** `update_about`: returns the stored document, without `_id`, after the
        merge. */
    method UpdateAbout(payload: Document, now: int, newId: ObjectId) returns (r: Result<Document, HttpError>)
      requires Valid()
      modifies this
      ensures Valid()
      ensures MergeAbout(old(docs), payload, now, newId).Err? ==>
        docs == old(docs) && r == Err(MergeAbout(old(docs), payload, now, newId).error)
      ensures MergeAbout(old(docs), payload, now, newId).Ok? ==>
        docs == MergeAbout(old(docs), payload, now, newId).value && r == Ok(AboutView(docs))
    {
      var data := payload[UpdatedAtKey := Time(now)];
      if docs != [] {
        if IdKey in data && data[IdKey] != docs[0][IdKey] {
          return Err(ImmutableIdChanged);
        }
        docs := [docs[0] + data] + docs[1..];
      } else {
        if IdKey !in data {
          data := data[IdKey := Oid(newId)];
        }
        docs := [data];
      }
      var updated := docs[0];
      updated := updated - {IdKey};
      r := Ok(updated);
    }

    /** `get_team_members`, `get_timeline`, `get_values`, `get_stats`. */
    method GetSection(s: Section) returns (r: Value)
      requires Valid()
      ensures r == SectionView(docs, s)
    {
      if docs != [] && s.Key() in docs[0] {
        return docs[0][s.Key()];
      }
      r := List([]);
    }

    /** `update_team_members`, `update_timeline`, `update_values`,
        `update_stats`: upsert the section and `updated_at`, and echo the
        input. */
    method UpdateSection(s: Section, items: seq<Value>, now: int, newId: ObjectId) returns (r: seq<Value>)
      requires Valid()
      modifies this
      ensures Valid()
      ensures docs == Upsert(old(docs), SectionFields(s, items, now), newId)
      ensures r == items
    {
      docs := Upsert(docs, SectionFields(s, items, now), newId);
      r := items;
    }
  }

  /** A section setter keeps the collection a singleton. */
  lemma UpsertKeepsSingleton(docs: seq<Document>, s: Section, items: seq<Value>, now: int, newId: ObjectId)
    requires Singleton(docs)
    ensures Singleton(Upsert(docs, SectionFields(s, items, now), newId))
  {
  }

  /** `update_about` keeps the collection a singleton. */
  lemma MergeKeepsSingleton(docs: seq<Document>, payload: Document, now: int, newId: ObjectId)
    requires Singleton(docs)
    ensures MergeAbout(docs, payload, now, newId).Ok? ==> Singleton(MergeAbout(docs, payload, now, newId).value)
  {
  }

  /** Round trip: after a section setter, its getter returns what was set. */
  lemma SectionRoundTrip(docs: seq<Document>, s: Section, items: seq<Value>, now: int, newId: ObjectId)
    ensures SectionView(Upsert(docs, SectionFields(s, items, now), newId), s) == List(items)
  {
  }

  /** A section setter writes its own key and `updated_at` and nothing else:
      on an existing document every other key keeps its value; on an empty
      collection the new document holds just these and an `_id`. */
  lemma SectionUpsertFrame(docs: seq<Document>, s: Section, items: seq<Value>, now: int, newId: ObjectId)
    ensures var d := Upsert(docs, SectionFields(s, items, now), newId)[0];
            && (docs == [] ==> d.Keys == {IdKey, s.Key(), UpdatedAtKey})
            && (docs != [] ==> d.Keys == docs[0].Keys + {s.Key(), UpdatedAtKey})
            && (docs != [] ==> forall k :: k in docs[0] && k != s.Key() && k != UpdatedAtKey ==> d[k] == docs[0][k])
            && d[s.Key()] == List(items) && d[UpdatedAtKey] == Time(now)
  {
  }

  /** The other sections survive a section setter unchanged. */
  lemma SectionSettersIndependent(docs: seq<Document>, s: Section, t: Section, items: seq<Value>, now: int, newId: ObjectId)
    requires s != t
    ensures SectionView(Upsert(docs, SectionFields(s, items, now), newId), t) == SectionView(docs, t)
  {
  }

  /** What `update_about` returns, and `get_about` then reads, is the old
      document with the payload and `updated_at` laid over it (the payload
      alone when there was none), without `_id`. */
  lemma MergeThenView(docs: seq<Document>, payload: Document, now: int, newId: ObjectId)
    requires Singleton(docs)
    ensures MergeAbout(docs, payload, now, newId).Ok? ==>
      AboutView(MergeAbout(docs, payload, now, newId).value) ==
        (if docs == [] then map[] else docs[0] - {IdKey}) + (payload[UpdatedAtKey := Time(now)] - {IdKey})
  {
  }

  /** A `$set` only fails when the payload would change the stored `_id`. */
  lemma MergeFailsOnlyOnIdChange(docs: seq<Document>, payload: Document, now: int, newId: ObjectId)
    requires Singleton(docs)
    ensures MergeAbout(docs, payload, now, newId).Err? <==>
      docs != [] && IdKey in payload && payload[IdKey] != docs[0][IdKey]
  {
  }

  /** A section written through `update_about` is what its getter returns. */
  lemma MergeThenSection(docs: seq<Document>, payload: Document, now: int, newId: ObjectId, s: Section)
    requires Singleton(docs)
    requires s.Key() in payload
    ensures MergeAbout(docs, payload, now, newId).Ok? ==>
      SectionView(MergeAbout(docs, payload, now, newId).value, s) == payload[s.Key()]
  {
  }
}
