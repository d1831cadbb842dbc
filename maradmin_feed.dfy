/** MARADMIN.py, the feed side: item identity, the new-item filter and the
    seen-id set as it is read from and written to the state file. */
module MaradminFeed {
  import opened Wrappers
  import opened Text
  import opened JsonValue

  /** One RSS item as `fetch_rss_entries` hands it on (fields already stripped
      there; `normalize_id` strips again). */
  datatype Entry = Entry(guid: string, title: string, link: string, summary: string, published: string)

  /** The field `normalize_id` takes: `guid or link or title or ""`. */
  function IdSource(e: Entry): string {
    if e.guid != [] then e.guid else if e.link != [] then e.link else e.title
  }

  /** `normalize_id`: the first non-empty of guid, link and title, stripped.
      It is empty exactly when that field is all whitespace. */
  function NormalizeId(e: Entry): (id: string)
    ensures id == [] <==> IsBlank(IdSource(e))
    ensures id != [] ==> Trimmed(id)
  {
    Strip(IdSource(e))
  }

  /** An item `find_new_entries` keeps: it has an id and that id was not seen. */
  predicate IsNew(e: Entry, seen: set<string>) {
    NormalizeId(e) != [] && NormalizeId(e) !in seen
  }

  /** The new items, in feed order. */
  function NewEntries(entries: seq<Entry>, seen: set<string>): seq<Entry>
    decreases |entries|
  {
    if entries == [] then []
    else
      var init := NewEntries(entries[..|entries| - 1], seen);
      var last := entries[|entries| - 1];
      if IsNew(last, seen) then init + [last] else init
  }

  /** The positions of the new items in the feed. */
  function NewPositions(entries: seq<Entry>, seen: set<string>): seq<int>
    decreases |entries|
  {
    if entries == [] then []
    else
      var init := NewPositions(entries[..|entries| - 1], seen);
      if IsNew(entries[|entries| - 1], seen) then init + [|entries| - 1] else init
  }

  /** The new items are exactly the feed items with an unseen id, and they
      keep feed order: item k of the result sits at an increasing position of
      the feed. */
  lemma {:induction false} NewEntriesSubsequence(entries: seq<Entry>, seen: set<string>)
    ensures |NewPositions(entries, seen)| == |NewEntries(entries, seen)|
    ensures forall k :: 0 <= k < |NewPositions(entries, seen)| ==>
              0 <= NewPositions(entries, seen)[k] < |entries| &&
              entries[NewPositions(entries, seen)[k]] == NewEntries(entries, seen)[k]
    ensures forall k, l :: 0 <= k < l < |NewPositions(entries, seen)| ==>
              NewPositions(entries, seen)[k] < NewPositions(entries, seen)[l]
    decreases |entries|
  {
    if entries != [] {
      var n := |entries| - 1;
      var init := entries[..n];
      NewEntriesSubsequence(init, seen);
      var p, f := NewPositions(init, seen), NewEntries(init, seen);
      assert forall k :: 0 <= k < |p| ==> entries[p[k]] == init[p[k]] == f[k];
      if IsNew(entries[n], seen) {
        assert NewPositions(entries, seen) == p + [n];
        assert NewEntries(entries, seen) == f + [entries[n]];
      } else {
        assert NewPositions(entries, seen) == p;
        assert NewEntries(entries, seen) == f;
      }
    }
  }

  /** Membership: an item is returned iff it is in the feed and new. */
  lemma {:induction false} NewEntriesMembers(entries: seq<Entry>, seen: set<string>)
    ensures forall e :: e in NewEntries(entries, seen) <==> e in entries && IsNew(e, seen)
    decreases |entries|
  {
    if entries != [] {
      var n := |entries| - 1;
      NewEntriesMembers(entries[..n], seen);
      assert entries == entries[..n] + [entries[n]];
    }
  }

  /** A feed none of whose items is new yields nothing. */
  lemma {:induction false} NewEntriesNone(entries: seq<Entry>, seen: set<string>)
    requires forall k :: 0 <= k < |entries| ==> !IsNew(entries[k], seen)
    ensures NewEntries(entries, seen) == []
    decreases |entries|
  {
    if entries != [] {
      NewEntriesNone(entries[..|entries| - 1], seen);
    }
  }

  /** `find_new_entries`. */
  method FindNewEntries(entries: seq<Entry>, seen: set<string>) returns (found: seq<Entry>)
    ensures found == NewEntries(entries, seen)
    ensures forall e :: e in found <==> e in entries && IsNew(e, seen)
    ensures forall e :: e in found ==> NormalizeId(e) != [] && NormalizeId(e) !in seen
  {
    found := [];
    var i := 0;
    while i < |entries|
      invariant 0 <= i <= |entries|
      invariant found == NewEntries(entries[..i], seen)
    {
      assert entries[..i + 1][..i] == entries[..i];
      var e := entries[i];
      var nid := NormalizeId(e);
      if nid != "" && nid !in seen {
        found := found + [e];
      }
      i := i + 1;
    }
    assert entries[..|entries|] == entries;
    NewEntriesMembers(entries, seen);
  }

  // ----------------------------------------------------------------------
  // The seen-id list in the state file
  // ----------------------------------------------------------------------

  /** What `load_state` returns: the parsed file, whatever JSON value it
      holds, or `{}` when the file is missing or does not parse (`loaded`
      is None). */
  function LoadState(loaded: Option<Json>): (state: Json)
    ensures loaded.None? ==> state == JObj(map[])
    ensures loaded.Some? ==> state == loaded.value
  {
    if loaded.Some? then loaded.value else JObj(map[])
  }

  /** The keys `main` tries, in order, for the seen-id list. */
  const SeenKeys: seq<string> := ["seen_ids", "processed", "processed_urls", "seen"]

  /** `state.get(k1) or state.get(k2) or ... or []`. */
  function FirstTruthy(state: map<string, Json>, keys: seq<string>): (v: Json)
    ensures Truthy(v) || v == JArr([])
    decreases |keys|
  {
    if keys == [] then JArr([])
    else if keys[0] in state && Truthy(state[keys[0]]) then state[keys[0]]
    else FirstTruthy(state, keys[1..])
  }

  /** Key `keys[k]` holds a truthy value, the test each `or` makes. */
  predicate TruthyAt(state: map<string, Json>, keys: seq<string>, k: int)
    requires 0 <= k < |keys|
  {
    keys[k] in state && Truthy(state[keys[k]])
  }

  /** The `or` chain picks the value of the first key, in order, whose value
      is truthy, and gives `[]` exactly when no key holds a truthy value. */
  lemma {:induction false} FirstTruthyIsFirst(state: map<string, Json>, keys: seq<string>)
    ensures FirstTruthy(state, keys) == JArr([]) <==> forall k :: 0 <= k < |keys| ==> !TruthyAt(state, keys, k)
    ensures FirstTruthy(state, keys) != JArr([]) ==>
      exists i :: 0 <= i < |keys| && TruthyAt(state, keys, i) && FirstTruthy(state, keys) == state[keys[i]] &&
                  forall k :: 0 <= k < i ==> !TruthyAt(state, keys, k)
    decreases |keys|
  {
    if keys != [] {
      if TruthyAt(state, keys, 0) {
        assert FirstTruthy(state, keys) == state[keys[0]];
      } else {
        var rest := keys[1..];
        FirstTruthyIsFirst(state, rest);
        assert forall k :: 0 <= k < |rest| ==> (TruthyAt(state, rest, k) <==> TruthyAt(state, keys, k + 1));
        if FirstTruthy(state, keys) != JArr([]) {
          var i :| 0 <= i < |rest| && TruthyAt(state, rest, i) && FirstTruthy(state, rest) == state[rest[i]] &&
                   forall k :: 0 <= k < i ==> !TruthyAt(state, rest, k);
          assert forall k :: 0 <= k < i + 1 ==> !TruthyAt(state, keys, k) by {
            forall k | 0 <= k < i + 1
              ensures !TruthyAt(state, keys, k)
            {
              if k > 0 {
                assert !TruthyAt(state, rest, k - 1);
              }
            }
          }
          assert TruthyAt(state, keys, i + 1) && FirstTruthy(state, keys) == state[keys[i + 1]];
        } else {
          forall k | 0 <= k < |keys|
            ensures !TruthyAt(state, keys, k)
          {
            if k > 0 {
              assert !TruthyAt(state, rest, k - 1);
            }
          }
        }
      }
    }
  }

  /** The seen-id set `main` starts from: the strings of the first truthy of
      the four keys, provided that value is a list; otherwise empty. */
  function LoadSeenIds(state: map<string, Json>): (seen: set<string>)
  {
    match FirstTruthy(state, SeenKeys)
    case JArr(items) => StringsOf(items)
    case _ => {}
  }

  /** A non-empty "seen_ids" list wins over every older key; a state with none
      of the four keys set yields the empty set. */
  lemma LoadSeenIdsPrefersSeenIds(state: map<string, Json>)
    ensures "seen_ids" in state && state["seen_ids"].JArr? && state["seen_ids"].items != [] ==>
              LoadSeenIds(state) == StringsOf(state["seen_ids"].items)
    ensures (forall k :: k in SeenKeys ==> k !in state) ==> LoadSeenIds(state) == {}
  {
    if forall k :: k in SeenKeys ==> k !in state {
      assert FirstTruthy(state, SeenKeys[3..]) == FirstTruthy(state, []);
    }
  }

  /** What `main` writes back: `state["seen_ids"] = sorted(seen_ids)` and the
      run time stamp (passed in, the clock is outside the model). */
  function SavedState(state: map<string, Json>, sortedSeen: seq<string>, now: string): map<string, Json> {
    state["seen_ids" := StrArray(sortedSeen)]["last_run_utc" := JStr(now)]
  }

  /** Saving a non-empty seen list and loading it again gives back the same ids. */
  lemma LoadAfterSave(state: map<string, Json>, sortedSeen: seq<string>, now: string)
    requires sortedSeen != []
    ensures LoadSeenIds(SavedState(state, sortedSeen, now)) == set x | x in sortedSeen
  {
    var saved := SavedState(state, sortedSeen, now);
    assert saved["seen_ids"] == StrArray(sortedSeen);
    assert JStr(sortedSeen[0]) in saved["seen_ids"].items;
    assert FirstTruthy(saved, SeenKeys) == saved["seen_ids"];
  }
}
