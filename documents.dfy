/**
 * The `toJSON` transform that src/models/AnalyticsEvent.js and
 * src/models/Campaign.js both install: the serialised document exposes its
 * `_id` as `id` and drops the `_id` and `__v` keys.
 */
module Documents {

  const IdKey: string := "id"
  const MongoIdKey: string := "_id"
  const VersionKey: string := "__v"

  /**
   * The keys of a serialised document after the transform: `id` holds what
   * `_id` held (and is absent when there was no `_id`, as JSON drops an
   * undefined value), `_id` and `__v` are gone, every other key is untouched.
   */
  function Serialised<V>(doc: map<string, V>): (r: map<string, V>)
    ensures MongoIdKey !in r && VersionKey !in r
    ensures IdKey in r <==> MongoIdKey in doc
    ensures MongoIdKey in doc ==> r[IdKey] == doc[MongoIdKey]
    ensures forall k :: k in doc && k != IdKey && k != MongoIdKey && k != VersionKey ==> k in r && r[k] == doc[k]
    ensures forall k :: k in r && k != IdKey ==> k in doc
  {
    var withId := if MongoIdKey in doc then doc[IdKey := doc[MongoIdKey]] else doc - {IdKey};
    withId - {MongoIdKey, VersionKey}
  }

  /** Renaming `id` back to `_id`: undoes the transform up to the dropped version key. */
  function Restored<V>(json: map<string, V>): map<string, V> {
    if IdKey in json then (json - {IdKey})[MongoIdKey := json[IdKey]] else json
  }

  /** The transform loses nothing but `__v`, for a stored document (one with `_id` and without a key named `id`). */
  lemma SerialisedRoundTrip<V>(doc: map<string, V>)
    requires MongoIdKey in doc && IdKey !in doc
    ensures Restored(Serialised(doc)) == doc - {VersionKey}
  {
    var r := Restored(Serialised(doc));
    assert forall k :: k in r <==> k in doc - {VersionKey};
    forall k | k in r
      ensures r[k] == (doc - {VersionKey})[k]
    {
      if k == MongoIdKey {
        assert Serialised(doc)[IdKey] == doc[MongoIdKey];
      }
    }
  }

  /** The `ret` object the transform receives and edits in place. */
  class JsonObject<V> {
    var fields: map<string, V>

    constructor (fields: map<string, V>)
      ensures this.fields == fields
    {
      this.fields := fields;
    }

    /** `ret.id = ret._id; delete ret._id; delete ret.__v`. */
    method Transform()
      modifies this
      ensures fields == Serialised(old(fields))
    {
      if MongoIdKey in fields {
        fields := fields[IdKey := fields[MongoIdKey]];
      } else {
        fields := fields - {IdKey};
      }
      fields := fields - {MongoIdKey};
      fields := fields - {VersionKey};
    }
  }
}
