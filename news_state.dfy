/** News.py, the state file: `load_state`'s fallback, `ensure_state_shape`
    (per-feed state under "feeds", with the migration of an older top-level
    seen-id list), and how `main` reads a feed's seen-id set. */
module NewsState {
  import opened Wrappers
  import opened JsonValue

  /** What `load_state` returns: the parsed file, or `{}` when the file is
      missing or does not parse (`loaded` is None). */
  function LoadState(loaded: Option<Json>): (state: Json)
    ensures loaded.None? ==> state == JObj(map[])
    ensures loaded.Some? ==> state == loaded.value
  {
    if loaded.Some? then loaded.value else JObj(map[])
  }

  /** The per-feed state `setdefault` installs. */
  const EmptyFeed: Json := JObj(map["seen_ids" := JArr([])])

  /** `ensure_state_shape` as a function of the state it is given. None when
      it raises: "feeds" holds something other than a dict. */
  function ShapedState(state: map<string, Json>): Option<map<string, Json>> {
    var feeds := if "feeds" in state then state["feeds"] else JObj(map[]);
    if !feeds.JObj? then None
    else
      var f0 := feeds.fields;
      var f1 := if "seen_ids" in state && "ciso" !in f0 && state["seen_ids"].JArr?
        then f0["ciso" := JObj(map["seen_ids" := state["seen_ids"]])]
        else f0;
      var f2 := if "ciso" in f1 then f1 else f1["ciso" := EmptyFeed];
      var f3 := if "rcd" in f2 then f2 else f2["rcd" := EmptyFeed];
      Some(state["feeds" := JObj(f3)])
  }

  /** The state has a "feeds" dict holding both feeds. */
  predicate HasFeeds(state: map<string, Json>) {
    "feeds" in state && state["feeds"].JObj? &&
    "ciso" in state["feeds"].fields && "rcd" in state["feeds"].fields
  }

  /** `ensure_state_shape`, one `setdefault` at a time, on the dict `state`. */
  method EnsureStateShape(state: map<string, Json>) returns (r: Option<map<string, Json>>)
    ensures r == ShapedState(state)
    ensures r.Some? ==> HasFeeds(r.value)
  {
    var st := state;
    if "feeds" !in st {
      st := st["feeds" := JObj(map[])];
    }
    if !st["feeds"].JObj? {
      return None;
    }
    var feeds := st["feeds"].fields;
    if "seen_ids" in st && "ciso" !in feeds {
      var legacy := st["seen_ids"];
      if legacy.JArr? {
        feeds := feeds["ciso" := JObj(map["seen_ids" := legacy])];
      }
    }
    if "ciso" !in feeds {
      feeds := feeds["ciso" := EmptyFeed];
    }
    if "rcd" !in feeds {
      feeds := feeds["rcd" := EmptyFeed];
    }
    st := st["feeds" := JObj(feeds)];
    assert st == state["feeds" := JObj(feeds)];
    return Some(st);
  }

  /** It raises exactly when "feeds" is present and not a dict; otherwise
      both feeds are there afterwards. */
  lemma ShapeRaisesOnlyOnBadFeeds(state: map<string, Json>)
    ensures ShapedState(state).None? <==> "feeds" in state && !state["feeds"].JObj?
    ensures ShapedState(state).Some? ==> HasFeeds(ShapedState(state).value)
  {
  }

  /** Nothing already there changes: every other top-level key keeps its
      value and every feed already under "feeds" keeps its state. */
  lemma ShapeKeepsExisting(state: map<string, Json>)
    requires ShapedState(state).Some?
    ensures var r := ShapedState(state).value;
      r.Keys == state.Keys + {"feeds"} &&
      (forall k :: k in state && k != "feeds" ==> r[k] == state[k]) &&
      ("feeds" in state ==>
         forall f :: f in state["feeds"].fields ==> f in r["feeds"].fields && r["feeds"].fields[f] == state["feeds"].fields[f])
  {
  }

  /** The migration: with no "ciso" feed yet, a top-level "seen_ids" list
      becomes the "ciso" feed's list; any other top-level value is ignored
      and the feed starts empty. */
  lemma ShapeMigratesSeenIds(state: map<string, Json>)
    requires ShapedState(state).Some?
    requires "feeds" !in state || "ciso" !in state["feeds"].fields
    ensures var ciso := ShapedState(state).value["feeds"].fields["ciso"];
      ("seen_ids" in state && state["seen_ids"].JArr? ==> ciso == JObj(map["seen_ids" := state["seen_ids"]])) &&
      (!("seen_ids" in state && state["seen_ids"].JArr?) ==> ciso == EmptyFeed)
  {
  }

  /** Calling it twice is calling it once. */
  lemma {:induction false} ShapeIdempotent(state: map<string, Json>)
    requires ShapedState(state).Some?
    ensures ShapedState(ShapedState(state).value) == ShapedState(state)
  {
    var r := ShapedState(state).value;
    var f := r["feeds"].fields;
    assert "ciso" in f && "rcd" in f;
    assert r["feeds" := JObj(f)] == r;
  }

  // ----------------------------------------------------------------------
  // A feed's seen-id set
  // ----------------------------------------------------------------------

  /** `set(v)` for the value `v` of a "seen_ids" key, keeping its strings:
      a list gives its string items, a string its characters, a dict its
      keys. None when `set` raises: the value is not iterable, or a list
      holds a list or a dict, which are unhashable. */
  function SetOfStrings(v: Json): (r: Option<set<string>>)
    ensures v.JArr? && (forall j :: j in v.items ==> !j.JArr? && !j.JObj?) ==> r == Some(StringsOf(v.items))
    ensures v.JNull? || v.JBool? || v.JInt? ==> r.None?
  {
    match v
    case JArr(items) => if exists j :: j in items && (j.JArr? || j.JObj?) then None else Some(StringsOf(items))
    case JStr(s) => Some(set c | c in s :: [c])
    case JObj(m) => Some(m.Keys)
    case _ => None
  }

  /** `set(fs.get("seen_ids", []))` for one feed's state `fs`. */
  function SeenIn(fs: map<string, Json>): (r: Option<set<string>>)
    ensures "seen_ids" !in fs ==> r == Some({})
  {
    if "seen_ids" in fs then SetOfStrings(fs["seen_ids"]) else Some({})
  }

  /** `set(state["feeds"][feed].get("seen_ids", []))`: None when the feed's
      state is not a dict (`.get` raises) or `set` raises. */
  function FeedSeen(state: map<string, Json>, feed: string): (r: Option<set<string>>)
    requires HasFeeds(state)
    requires feed in state["feeds"].fields
    ensures !state["feeds"].fields[feed].JObj? ==> r.None?
    ensures state["feeds"].fields[feed].JObj? && "seen_ids" !in state["feeds"].fields[feed].fields ==> r == Some({})
  {
    var fs := state["feeds"].fields[feed];
    if !fs.JObj? then None else SeenIn(fs.fields)
  }

  /** Writing back `sorted(seen)` and reading the set again gives `seen`. */
  lemma SeenInAfterWrite(fs: map<string, Json>, ids: seq<string>)
    ensures SeenIn(fs["seen_ids" := StrArray(ids)]) == Some(set x | x in ids)
  {
    var v := StrArray(ids);
    assert forall j :: j in v.items ==> j.JStr? by {
      forall j | j in v.items
        ensures j.JStr?
      {
        var k :| 0 <= k < |v.items| && v.items[k] == j;
      }
    }
    assert !exists j :: j in v.items && (j.JArr? || j.JObj?);
    assert StringsOf(v.items) == set x | x in ids;
  }

  /** Writing any other key leaves the seen set as it was. */
  lemma SeenInOtherKey(fs: map<string, Json>, key: string, v: Json)
    requires key != "seen_ids"
    ensures SeenIn(fs[key := v]) == SeenIn(fs)
  {
    if "seen_ids" in fs {
      assert fs[key := v]["seen_ids"] == fs["seen_ids"];
    }
  }

  /** A freshly installed feed state has an empty seen set. */
  lemma EmptyFeedSeen(state: map<string, Json>, feed: string)
    requires HasFeeds(state) && feed in state["feeds"].fields
    requires state["feeds"].fields[feed] == EmptyFeed
    ensures FeedSeen(state, feed) == Some({})
  {
    assert StringsOf([]) == {};
  }
}
