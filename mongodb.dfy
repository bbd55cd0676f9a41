/**
 * The document store adapter: two collections of loosely typed documents, keyed by the
 * decimal form of a numeric id; reads backfill the default fields, writes are partial
 * updates with upsert.
 */
module MongoDB {
  import opened Wrappers
  import Sequences
  import Parsing

  /** A JSON-like document value as the database driver returns it. */
  datatype Value =
    | Null
    | Bool(b: bool)
    | Int(i: int)
    | Str(s: string)
    | List(items: seq<Value>)
    | Dict(fields: map<string, Value>)

  type Document = map<string, Value>

  /** DEFAULT_GUILD_DATA. It has no `ads` and no `pending_ad_message_ids`. */
  const DefaultGuildData: Document := map[
    "_id" := Int(0),
    "tickets_channel_id" := Null,
    "tickets_message_id" := Null,
    "verification_channel_id" := Null,
    "verification_message_id" := Null,
    "pending_verification_message_ids" := Dict(map[]),
    "auto_roles_channel_id" := Null,
    "auto_roles_message_id" := Null
  ]

  /** DEFAULT_GUILD_MEMBER. It has no `ad_pending` and no `ad_listed`. */
  const DefaultGuildMember: Document := map[
    "_id" := Int(0),
    "verification_pending" := Bool(false),
    "verification_cooldown" := Null,
    "verification_codes" := Dict(map[]),
    "verification_join_code" := Null,
    "verification_join_inviter" := Null,
    "exp" := Int(0),
    "level" := Int(1)
  ]

  /* ---------------------------------------------------------------------------------------
   * `_set_default_dict`
   * ------------------------------------------------------------------------------------- */

  /**
   * What `_set_default_dict` produces: every top-level default key that is missing is added
   * with the default's value; when a default is a dict and the document's value is a dict,
   * the default's missing second-level keys are added. Nothing is overwritten.
   */
  function Backfill(current: Document, defaults: Document): Document
  {
    map k | k in current.Keys + defaults.Keys ::
      var v := if k in current then current[k] else defaults[k];
      if k in defaults && defaults[k].Dict? && v.Dict? then Dict(defaults[k].fields + v.fields) else v
  }

  /** At `k` the second-level loop calls `.keys()` on a value that is not a dict (AttributeError). */
  predicate FailsAt(current: Document, defaults: Document, k: string)
  {
    && k in current && k in defaults
    && defaults[k].Dict? && defaults[k].fields != map[]
    && !current[k].Dict?
  }

  predicate MergeFails(current: Document, defaults: Document)
  {
    exists k :: k in current && FailsAt(current, defaults, k)
  }

  /** The dict being backfilled once the top-level keys in `done` have been processed. */
  ghost function PartlyFilled(current: Document, defaults: Document, done: set<string>): Document
    requires done <= defaults.Keys
  {
    map k | k in current.Keys + done :: if k in done then Backfill(current, defaults)[k] else current[k]
  }

  /**
   * `_set_default_dict(current_dict, default_dict)`: the outer loop over the default keys.
   * The caller's dict is returned updated; None is the AttributeError of a non-dict value
   * under a non-empty dict default.
   */
  method SetDefaultDict(current: Document, defaults: Document) returns (r: Option<Document>)
    ensures r.None? <==> MergeFails(current, defaults)
    ensures r.Some? ==> r.value == Backfill(current, defaults)
  {
    var dict := current;
    var todo := defaults.Keys;
    while todo != {}
      invariant todo <= defaults.Keys
      invariant dict == PartlyFilled(current, defaults, defaults.Keys - todo)
      invariant forall k :: k in defaults.Keys - todo ==> !FailsAt(current, defaults, k)
      decreases todo
    {
      var key :| key in todo;
      ghost var done := defaults.Keys - todo;
      var value := defaults[key];
      if key !in dict {
        dict := dict[key := value];
      }
      assert dict[key] == if key in current then current[key] else value;
      if value.Dict? {
        var filled := FillSecondLevel(dict[key], value.fields);
        if filled.None? {
          assert FailsAt(current, defaults, key);
          return None;
        }
        dict := dict[key := filled.value];
      }
      assert dict[key] == Backfill(current, defaults)[key];
      PartlyFilledStep(current, defaults, done, key);
      todo := todo - {key};
      assert defaults.Keys - todo == done + {key};
    }
    PartlyFilledAll(current, defaults);
    return Some(dict);
  }

  lemma PartlyFilledStep(current: Document, defaults: Document, done: set<string>, key: string)
    requires done <= defaults.Keys && key in defaults
    ensures PartlyFilled(current, defaults, done + {key})
         == PartlyFilled(current, defaults, done)[key := Backfill(current, defaults)[key]]
  {
  }

  lemma PartlyFilledAll(current: Document, defaults: Document)
    ensures PartlyFilled(current, defaults, defaults.Keys) == Backfill(current, defaults)
  {
  }

  /**
   * The inner loop of `_set_default_dict` on the value `current_dict[default_key]`: each
   * second-level default key it lacks is added. None: the value is not a dict and there is
   * at least one key to look up.
   */
  method FillSecondLevel(v: Value, fields: map<string, Value>) returns (r: Option<Value>)
    ensures r.None? <==> fields != map[] && !v.Dict?
    ensures r.Some? ==> r.value == if v.Dict? then Dict(fields + v.fields) else v
  {
    var cur := v;
    var inner := fields.Keys;
    while inner != {}
      invariant inner <= fields.Keys
      invariant inner == fields.Keys ==> cur == v
      invariant inner != fields.Keys ==>
        v.Dict? && cur == Dict((map k | k in fields.Keys - inner :: fields[k]) + v.fields)
      decreases inner
    {
      var key2 :| key2 in inner;
      if !cur.Dict? {
        return None;
      }
      if key2 !in cur.fields {
        cur := Dict(cur.fields[key2 := fields[key2]]);
      }
      inner := inner - {key2};
    }
    assert (map k | k in fields.Keys - inner :: fields[k]) == fields;
    if v.Dict? {
      assert v == Dict(map[] + v.fields);
    }
    return Some(cur);
  }

  /** After the backfill every default key is present, and so is every key the document had. */
  lemma BackfillHasAllKeys(current: Document, defaults: Document)
    ensures Backfill(current, defaults).Keys == current.Keys + defaults.Keys
  {
  }

  /**
   * The backfill never overwrites: a value the document had is kept as it was, except that a
   * dict under a dict default gains the default's missing second-level keys; those it had keep
   * their values, however deep they are (there is no third level of merging).
   */
  lemma BackfillNeverOverwrites(current: Document, defaults: Document, k: string)
    requires k in current
    ensures var r := Backfill(current, defaults);
      k in r &&
      (if k in defaults && defaults[k].Dict? && current[k].Dict? then
         && r[k].Dict?
         && r[k].fields.Keys == current[k].fields.Keys + defaults[k].fields.Keys
         && (forall k2 :: k2 in current[k].fields ==> r[k].fields[k2] == current[k].fields[k2])
         && (forall k2 :: k2 in defaults[k].fields && k2 !in current[k].fields ==>
               r[k].fields[k2] == defaults[k].fields[k2])
       else r[k] == current[k])
  {
  }

  /** A missing key gets (a copy of) its default value. */
  lemma BackfillFillsMissing(current: Document, defaults: Document, k: string)
    requires k in defaults && k !in current
    ensures Backfill(current, defaults)[k] == defaults[k]
  {
    var d := defaults[k];
    if d.Dict? {
      assert d.fields + d.fields == d.fields;
    }
  }

  /** Applying `_set_default_dict` twice gives what applying it once gives. */
  lemma BackfillIdempotent(current: Document, defaults: Document)
    ensures Backfill(Backfill(current, defaults), defaults) == Backfill(current, defaults)
  {
    var once := Backfill(current, defaults);
    var twice := Backfill(once, defaults);
    forall k | k in once
      ensures twice[k] == once[k]
    {
      if k in defaults && defaults[k].Dict? && once[k].Dict? {
        assert defaults[k].fields + once[k].fields == once[k].fields;
      }
    }
  }

  /** Every dict-valued default is empty: true of both default documents. */
  predicate Flat(defaults: Document)
  {
    forall k :: k in defaults && defaults[k].Dict? ==> defaults[k].fields == map[]
  }

  lemma DefaultsAreFlat()
    ensures Flat(DefaultGuildData) && Flat(DefaultGuildMember)
  {
  }

  /** With flat defaults the backfill cannot fail, and it is a union in which the document wins. */
  lemma BackfillFlat(current: Document, defaults: Document)
    requires Flat(defaults)
    ensures !MergeFails(current, defaults)
    ensures Backfill(current, defaults) == defaults + current
  {
    var r := Backfill(current, defaults);
    forall k | k in r
      ensures r[k] == (defaults + current)[k]
    {
      var v := if k in current then current[k] else defaults[k];
      if k in defaults && defaults[k].Dict? && v.Dict? {
        assert defaults[k].fields + v.fields == v.fields;
      }
    }
  }

  /* ---------------------------------------------------------------------------------------
   * Fetch
   * ------------------------------------------------------------------------------------- */

  /**
   * What `fetch_guild_data` / `fetch_guild_member` return for the document stored under `key`:
   * a copy of the defaults when there is none, the backfilled document otherwise, and in both
   * cases `_id` replaced by the numeric id. None: the backfill raised.
   */
  function Fetched(coll: map<string, Document>, key: string, defaults: Document, id: int): Option<Document>
  {
    if key !in coll then Some(defaults["_id" := Int(id)])
    else if MergeFails(coll[key], defaults) then None
    else Some(Backfill(coll[key], defaults)["_id" := Int(id)])
  }

  /* ---------------------------------------------------------------------------------------
   * Partial updates
   * ------------------------------------------------------------------------------------- */

  /** A field, or a dotted path `name.key` into a dict-valued field. */
  datatype Path = Field(name: string) | Nested(name: string, key: string)

  /** The update operators the handlers use: `$set`, `$unset`, `$inc`, `$push`, `$pull`. */
  datatype Op =
    | Set(path: Path, value: Value)
    | Unset(path: Path)
    | Inc(field: string, amount: int)
    | Push(field: string, value: Value)
    | Pull(field: string, value: Value)

  /** One operator on one document; None: the server rejects it (wrong type at the path). */
  function ApplyOp(doc: Document, op: Op): Option<Document>
  {
    match op
    case Set(Field(f), v) => Some(doc[f := v])
    case Set(Nested(f, g), v) =>
      if f !in doc then Some(doc[f := Dict(map[g := v])])
      else if doc[f].Dict? then Some(doc[f := Dict(doc[f].fields[g := v])])
      else None
    case Unset(Field(f)) => Some(doc - {f})
    case Unset(Nested(f, g)) =>
      if f in doc && doc[f].Dict? then Some(doc[f := Dict(doc[f].fields - {g})]) else Some(doc)
    case Inc(f, n) =>
      if f !in doc then Some(doc[f := Int(n)])
      else if doc[f].Int? then Some(doc[f := Int(doc[f].i + n)])
      else None
    case Push(f, v) =>
      if f !in doc then Some(doc[f := List([v])])
      else if doc[f].List? then Some(doc[f := List(doc[f].items + [v])])
      else None
    case Pull(f, v) =>
      if f !in doc then Some(doc)
      else if doc[f].List? then Some(doc[f := List(Sequences.RemoveAll(doc[f].items, v))])
      else None
  }

  /** All operators of one update document, in order; one rejected operator rejects the whole update. */
  function ApplyUpdate(doc: Document, update: seq<Op>): Option<Document>
    decreases |update|
  {
    if update == [] then Some(doc)
    else
      match ApplyOp(doc, update[0])
      case None => None
      case Some(d) => ApplyUpdate(d, update[1..])
  }

  /**
   * `update_one({"_id": key}, update, upsert=True)`: a missing document is created from the
   * filter's `_id` and then updated. None: the update was rejected and nothing was written.
   */
  function Upserted(coll: map<string, Document>, key: string, update: seq<Op>): Option<map<string, Document>>
  {
    var base := if key in coll then coll[key] else map["_id" := Str(key)];
    match ApplyUpdate(base, update)
    case None => None
    case Some(d) => Some(coll[key := d])
  }

  /** Fetching a member that has no document gives a copy of the default member. */
  lemma FetchFreshMember(coll: map<string, Document>, memberId: int)
    requires Parsing.IntToString(memberId) !in coll
    ensures var r := Fetched(coll, Parsing.IntToString(memberId), DefaultGuildMember, memberId);
      && r.Some?
      && r.value.Keys == DefaultGuildMember.Keys
      && r.value["_id"] == Int(memberId)
      && r.value["verification_pending"] == Bool(false)
      && r.value["verification_cooldown"] == Null
      && r.value["verification_codes"] == Dict(map[])
      && r.value["verification_join_code"] == Null
      && r.value["verification_join_inviter"] == Null
      && r.value["exp"] == Int(0)
      && r.value["level"] == Int(1)
      && "ad_pending" !in r.value && "ad_listed" !in r.value
  {
  }

  /** A fresh guild document has no advertisement fields: reading them raises KeyError. */
  lemma FetchFreshGuildData(coll: map<string, Document>, guildId: int)
    requires Parsing.IntToString(guildId) !in coll
    ensures var r := Fetched(coll, Parsing.IntToString(guildId), DefaultGuildData, guildId);
      && r.Some?
      && r.value["_id"] == Int(guildId)
      && r.value["pending_verification_message_ids"] == Dict(map[])
      && "ads" !in r.value && "pending_ad_message_ids" !in r.value
  {
  }

  /**
   * An operator whose path is untouched by the backfill: it is not `_id`, and the default at
   * its field is absent or is the operator's neutral starting value.
   */
  predicate Neutral(defaults: Document, op: Op)
  {
    match op
    case Set(Field(f), _) => f != "_id"
    case Set(Nested(f, _), _) => f != "_id" && (f !in defaults || defaults[f] == Dict(map[]))
    case Unset(Field(f)) => f != "_id" && f !in defaults
    case Unset(Nested(f, _)) => f != "_id" && (f !in defaults || defaults[f] == Dict(map[]))
    case Inc(f, _) => f != "_id" && (f !in defaults || defaults[f] == Int(0))
    case Push(f, _) => f != "_id" && (f !in defaults || defaults[f] == List([]))
    case Pull(f, _) => f != "_id" && (f !in defaults || defaults[f] == List([]))
  }

  /** A stored document as a fetch shows it, when the defaults are flat. */
  function View(doc: Document, defaults: Document, id: int): Document
  {
    (defaults + doc)["_id" := Int(id)]
  }

  function ViewOf(r: Option<Document>, defaults: Document, id: int): Option<Document>
  {
    match r
    case None => None
    case Some(doc) => Some(View(doc, defaults, id))
  }

  /** Writing a field other than `_id` commutes with taking the view. */
  lemma ViewSet(doc: Document, defaults: Document, id: int, f: string, x: Value)
    requires f != "_id"
    ensures View(doc[f := x], defaults, id) == View(doc, defaults, id)[f := x]
  {
  }

  /** Removing a field that has no default commutes with taking the view. */
  lemma ViewRemove(doc: Document, defaults: Document, id: int, f: string)
    requires f != "_id" && f !in defaults
    ensures View(doc - {f}, defaults, id) == View(doc, defaults, id) - {f}
  {
  }

  /** The view shows a stored field as stored, and a missing one as its default. */
  lemma ViewAt(doc: Document, defaults: Document, id: int, f: string)
    requires f != "_id"
    ensures f in View(doc, defaults, id) <==> f in doc || f in defaults
    ensures f in doc ==> View(doc, defaults, id)[f] == doc[f]
    ensures f !in doc && f in defaults ==> View(doc, defaults, id)[f] == defaults[f]
  {
  }

  /** A neutral operator gives the same view whether applied to the stored document or to its view. */
  lemma ViewCommutes(doc: Document, defaults: Document, id: int, op: Op)
    requires Neutral(defaults, op)
    ensures ApplyOp(View(doc, defaults, id), op) == ViewOf(ApplyOp(doc, op), defaults, id)
  {
    match op
    case Set(Field(f), x) =>
      ViewSet(doc, defaults, id, f, x);
    case Set(Nested(f, g), x) =>
      ViewAt(doc, defaults, id, f);
      if f in doc && doc[f].Dict? {
        ViewSet(doc, defaults, id, f, Dict(doc[f].fields[g := x]));
      } else if f !in doc {
        ViewSet(doc, defaults, id, f, Dict(map[g := x]));
        if f in defaults {
          assert defaults[f].fields[g := x] == map[g := x];
        }
      }
    case Unset(Field(f)) =>
      ViewRemove(doc, defaults, id, f);
    case Unset(Nested(f, g)) =>
      ViewAt(doc, defaults, id, f);
      if f in doc && doc[f].Dict? {
        ViewSet(doc, defaults, id, f, Dict(doc[f].fields - {g}));
      } else if f !in doc && f in defaults {
        UnsetNestedDefault(View(doc, defaults, id), f, g);
      }
    case Inc(f, n) =>
      ViewAt(doc, defaults, id, f);
      if f in doc && doc[f].Int? {
        ViewSet(doc, defaults, id, f, Int(doc[f].i + n));
      } else if f !in doc {
        ViewSet(doc, defaults, id, f, Int(n));
      }
    case Push(f, x) =>
      ViewAt(doc, defaults, id, f);
      if f in doc && doc[f].List? {
        ViewSet(doc, defaults, id, f, List(doc[f].items + [x]));
      } else if f !in doc {
        ViewSet(doc, defaults, id, f, List([x]));
        assert [] + [x] == [x];
      }
    case Pull(f, x) =>
      ViewAt(doc, defaults, id, f);
      if f in doc && doc[f].List? {
        ViewSet(doc, defaults, id, f, List(Sequences.RemoveAll(doc[f].items, x)));
      } else if f !in doc && f in defaults {
        PullEmpty(View(doc, defaults, id), f, x);
      }
  }

  lemma UnsetNestedDefault(v: Document, f: string, g: string)
    requires f in v && v[f] == Dict(map[])
    ensures v[f := Dict(v[f].fields - {g})] == v
  {
    var empty: map<string, Value> := map[];
    assert empty - {g} == empty;
  }

  lemma PullEmpty(v: Document, f: string, x: Value)
    requires f in v && v[f] == List([])
    ensures v[f := List(Sequences.RemoveAll(v[f].items, x))] == v
  {
  }

  lemma {:induction false} ViewCommutesUpdate(doc: Document, defaults: Document, id: int, update: seq<Op>)
    requires forall i :: 0 <= i < |update| ==> Neutral(defaults, update[i])
    ensures ApplyUpdate(View(doc, defaults, id), update) == ViewOf(ApplyUpdate(doc, update), defaults, id)
    decreases |update|
  {
    if update != [] {
      ViewCommutes(doc, defaults, id, update[0]);
      match ApplyOp(doc, update[0])
      case None =>
      case Some(d) =>
        ViewCommutesUpdate(d, defaults, id, update[1..]);
    }
  }

  /**
   * Upsert semantics as the handlers see them: with flat defaults and neutral operators,
   * fetching after an upserting update gives exactly the update applied to what the fetch
   * gave before, whether or not the document existed; and the update is rejected in one case
   * exactly when it is in the other.
   */
  lemma FetchAfterUpsert(coll: map<string, Document>, key: string, defaults: Document, id: int, update: seq<Op>)
    requires Flat(defaults)
    requires forall i :: 0 <= i < |update| ==> Neutral(defaults, update[i])
    ensures Fetched(coll, key, defaults, id).Some?
    ensures var u := Upserted(coll, key, update);
      && (u.None? <==> ApplyUpdate(Fetched(coll, key, defaults, id).value, update).None?)
      && (u.Some? ==> Fetched(u.value, key, defaults, id) == ApplyUpdate(Fetched(coll, key, defaults, id).value, update))
  {
    var base := if key in coll then coll[key] else map["_id" := Str(key)];
    if key in coll {
      BackfillFlat(coll[key], defaults);
    } else {
      assert defaults["_id" := Int(id)] == View(base, defaults, id);
    }
    assert Fetched(coll, key, defaults, id) == Some(View(base, defaults, id));
    ViewCommutesUpdate(base, defaults, id, update);
    match ApplyUpdate(base, update)
    case None =>
    case Some(d) =>
      BackfillFlat(d, defaults);
      assert Fetched(coll[key := d], key, defaults, id) == Some(View(d, defaults, id));
  }

  /** The two collections, and the adapter's operations on them. */
  class Database {
    const guildId: int
    var guildData: map<string, Document>
    var guildMember: map<string, Document>

    method FetchGuildData() returns (r: Option<Document>)
      ensures r == Fetched(guildData, Parsing.IntToString(guildId), DefaultGuildData, guildId)
    {
      var key := Parsing.IntToString(guildId);
      if key in guildData {
        r := SetDefaultDict(guildData[key], DefaultGuildData);
      } else {
        r := Some(DefaultGuildData);
      }
      if r.Some? {
        r := Some(r.value["_id" := Int(guildId)]);
      }
    }

    method UpdateGuildDataDocument(update: seq<Op>) returns (ok: bool)
      modifies this`guildData
      ensures var u := Upserted(old(guildData), Parsing.IntToString(guildId), update);
        ok == u.Some? && guildData == if ok then u.value else old(guildData)
    {
      var u := Upserted(guildData, Parsing.IntToString(guildId), update);
      ok := u.Some?;
      if ok {
        guildData := u.value;
      }
    }

    method FetchGuildMember(memberId: int) returns (r: Option<Document>)
      ensures r == Fetched(guildMember, Parsing.IntToString(memberId), DefaultGuildMember, memberId)
    {
      var key := Parsing.IntToString(memberId);
      if key in guildMember {
        r := SetDefaultDict(guildMember[key], DefaultGuildMember);
      } else {
        r := Some(DefaultGuildMember);
      }
      if r.Some? {
        r := Some(r.value["_id" := Int(memberId)]);
      }
    }

    method UpdateGuildMemberDocument(memberId: int, update: seq<Op>) returns (ok: bool)
      modifies this`guildMember
      ensures var u := Upserted(old(guildMember), Parsing.IntToString(memberId), update);
        ok == u.Some? && guildMember == if ok then u.value else old(guildMember)
    {
      var u := Upserted(guildMember, Parsing.IntToString(memberId), update);
      ok := u.Some?;
      if ok {
        guildMember := u.value;
      }
    }
  }
}
