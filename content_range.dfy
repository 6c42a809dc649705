/** The `warning_log` handler's cursor fetch (getContentInRange) over the warning log
    table, and the batch loop an indexer runs with it. */
module ContentRange {
  import opened Common
  import opened Entities

  /** The primary key the finder orders and pages by. */
  function Key(e: WarningLogEntity): int
  {
    e.row.warningLogId
  }

  /** Strictly increasing keys: the table in primary-key order, each key once. */
  predicate Ascending(s: seq<WarningLogEntity>)
  {
    forall i, j :: 0 <= i < j < |s| ==> Key(s[i]) < Key(s[j])
  }

  /** `where(key, '>', lastId)` and the inner join `with('ReportComment', true)`. */
  predicate Eligible(e: WarningLogEntity, lastId: int)
  {
    Key(e) > lastId && e.comment.Some?
  }

  /** The rows the finder matches, in table order. */
  function After(store: seq<WarningLogEntity>, lastId: int): seq<WarningLogEntity>
  {
    if store == [] then []
    else (if Eligible(store[0], lastId) then [store[0]] else []) + After(store[1..], lastId)
  }

  /** `fetch(amount)`: at most `amount` rows. */
  function Take(s: seq<WarningLogEntity>, amount: nat): seq<WarningLogEntity>
  {
    if |s| <= amount then s else s[..amount]
  }

  datatype RangeError = EntityUndefined | CompositePrimaryKey

  /** The collection returned, or the LogicException thrown. */
  datatype RangeResult = Fetched(contents: seq<WarningLogEntity>) | LogicError(reason: RangeError)

  /** getContentInRange on a table `store`; `entityDefined` is whether the content type
      defines an entity, `primaryKeyColumns` how many columns its primary key has. */
  function ContentInRange(store: seq<WarningLogEntity>, lastId: int, amount: nat, addonActive: bool,
                          entityDefined: bool, primaryKeyColumns: nat): RangeResult
  {
    if !addonActive then Fetched([])
    else if !entityDefined then LogicError(EntityUndefined)
    else if primaryKeyColumns > 1 then LogicError(CompositePrimaryKey)
    else Fetched(Take(After(store, lastId), amount))
  }

  /** The finder's scan: the matching rows in key order, stopping after `amount`. */
  method GetContentInRange(store: seq<WarningLogEntity>, lastId: int, amount: nat, addonActive: bool,
                           entityDefined: bool, primaryKeyColumns: nat) returns (r: RangeResult)
    ensures r == ContentInRange(store, lastId, amount, addonActive, entityDefined, primaryKeyColumns)
  {
    if !addonActive {
      return Fetched([]);
    }
    if !entityDefined {
      return LogicError(EntityUndefined);
    }
    if primaryKeyColumns > 1 {
      return LogicError(CompositePrimaryKey);
    }
    var contents: seq<WarningLogEntity> := [];
    var i := 0;
    while i < |store| && |contents| < amount
      invariant 0 <= i <= |store|
      invariant contents + After(store[i..], lastId) == After(store, lastId)
      invariant |contents| <= amount
    {
      AfterStep(store, i, lastId);
      if Eligible(store[i], lastId) {
        contents := contents + [store[i]];
      }
      i := i + 1;
    }
    TakeOfPrefix(contents, After(store[i..], lastId), amount, i == |store|);
    assert store[|store|..] == [];
    r := Fetched(contents);
  }

  lemma AfterStep(store: seq<WarningLogEntity>, i: nat, lastId: int)
    requires i < |store|
    ensures After(store[i..], lastId) ==
      (if Eligible(store[i], lastId) then [store[i]] else []) + After(store[i + 1..], lastId)
  {
    assert store[i..][1..] == store[i + 1..];
  }

  lemma TakeOfPrefix(contents: seq<WarningLogEntity>, rest: seq<WarningLogEntity>, amount: nat, atEnd: bool)
    requires |contents| <= amount
    requires atEnd ==> rest == []
    requires !atEnd ==> |contents| == amount
    ensures Take(contents + rest, amount) == contents
  {
    if !atEnd {
      assert (contents + rest)[..amount] == contents;
    }
  }

  lemma {:induction false} AfterMembers(store: seq<WarningLogEntity>, lastId: int)
    ensures forall e :: e in After(store, lastId) <==> e in store && Eligible(e, lastId)
  {
    if store != [] {
      AfterMembers(store[1..], lastId);
      assert forall e :: e in store <==> e == store[0] || e in store[1..] by {
        assert store == [store[0]] + store[1..];
      }
    }
  }

  lemma {:induction false} AfterAscending(store: seq<WarningLogEntity>, lastId: int)
    requires Ascending(store)
    ensures Ascending(After(store, lastId))
  {
    if store != [] {
      var rest := store[1..];
      assert Ascending(rest) by {
        forall i, j | 0 <= i < j < |rest| ensures Key(rest[i]) < Key(rest[j]) {
          assert rest[i] == store[i + 1] && rest[j] == store[j + 1];
        }
      }
      AfterAscending(rest, lastId);
      AfterMembers(rest, lastId);
      var tail := After(rest, lastId);
      forall e | e in tail ensures Key(store[0]) < Key(e) {
        var j :| 0 <= j < |rest| && rest[j] == e;
        assert store[j + 1] == e;
      }
      var head := if Eligible(store[0], lastId) then [store[0]] else [];
      forall i, j | 0 <= i < j < |head + tail| ensures Key((head + tail)[i]) < Key((head + tail)[j]) {
        if head != [] && i == 0 {
          assert (head + tail)[j] == tail[j - 1];
          assert tail[j - 1] in tail;
        }
      }
    }
  }

  /** Rows all above both cursors are matched alike by either. */
  lemma {:induction false} AfterAboveBoth(s: seq<WarningLogEntity>, c1: int, c2: int)
    requires forall e :: e in s ==> Key(e) > c1 && Key(e) > c2
    ensures After(s, c1) == After(s, c2)
  {
    if s != [] {
      assert s[0] in s;
      assert forall e :: e in s[1..] ==> e in s;
      AfterAboveBoth(s[1..], c1, c2);
    }
  }

  lemma RestAscending(store: seq<WarningLogEntity>)
    requires Ascending(store) && store != []
    ensures Ascending(store[1..])
    ensures forall e :: e in store[1..] ==> Key(e) > Key(store[0])
  {
    var rest := store[1..];
    forall a, b | 0 <= a < b < |rest| ensures Key(rest[a]) < Key(rest[b]) {
      assert rest[a] == store[a + 1] && rest[b] == store[b + 1];
    }
    forall e | e in rest ensures Key(e) > Key(store[0]) {
      var j :| 0 <= j < |rest| && rest[j] == e;
      assert store[j + 1] == e;
    }
  }

  /** Paging on from the key of the `i`-th matched row matches exactly the rows after it. */
  lemma {:induction false} AfterCursor(store: seq<WarningLogEntity>, lastId: int, i: nat)
    requires Ascending(store)
    requires i < |After(store, lastId)|
    ensures After(store, Key(After(store, lastId)[i])) == After(store, lastId)[i + 1..]
  {
    var rest := store[1..];
    RestAscending(store);
    var E := After(store, lastId);
    var k := Key(E[i]);
    AfterMembers(rest, lastId);
    if Eligible(store[0], lastId) {
      assert E == [store[0]] + After(rest, lastId);
      if i == 0 {
        AfterAboveBoth(rest, k, lastId);
      } else {
        assert E[i] == After(rest, lastId)[i - 1];
        assert E[i] in rest;
        AfterCursor(rest, lastId, i - 1);
        assert E[i + 1..] == After(rest, lastId)[i..];
      }
    } else {
      assert E == After(rest, lastId);
      assert E[i] in rest;
      AfterCursor(rest, lastId, i);
    }
  }

  /** One batch of the indexer: an empty batch means nothing is left past the cursor;
      otherwise the batch followed by what lies past its last key is everything past
      the cursor, and that key is past the cursor. */
  lemma BatchStep(store: seq<WarningLogEntity>, lastId: int, amount: nat)
    requires Ascending(store) && amount > 0
    ensures var batch := Take(After(store, lastId), amount);
      && (batch == [] ==> After(store, lastId) == [])
      && (batch != [] ==>
        && Key(batch[|batch| - 1]) > lastId
        && batch + After(store, Key(batch[|batch| - 1])) == After(store, lastId)
        && |After(store, Key(batch[|batch| - 1]))| < |After(store, lastId)|)
  {
    var E := After(store, lastId);
    var batch := Take(E, amount);
    if batch != [] {
      var n := |batch|;
      assert batch == E[..n];
      assert batch[n - 1] == E[n - 1];
      AfterCursor(store, lastId, n - 1);
      AfterMembers(store, lastId);
      assert E[n - 1] in E;
      assert E[..n] + E[n..] == E;
    }
  }

  /** What getContentInRange promises: no row is reported twice, only rows past the
      cursor that have a report comment come back, in key order, at most `amount` of
      them, none skipped; the two LogicExceptions are the only errors, and an inactive
      add-on yields nothing. */
  lemma ContentInRangeMeaning(store: seq<WarningLogEntity>, lastId: int, amount: nat, addonActive: bool,
                              entityDefined: bool, primaryKeyColumns: nat)
    requires Ascending(store)
    ensures var r := ContentInRange(store, lastId, amount, addonActive, entityDefined, primaryKeyColumns);
      && (r.LogicError? <==> addonActive && (!entityDefined || primaryKeyColumns > 1))
      && (r.LogicError? ==> (r.reason == CompositePrimaryKey <==> entityDefined))
      && (!addonActive ==> r == Fetched([]))
      && (r.Fetched? ==>
        && |r.contents| <= amount
        && Ascending(r.contents)
        && (forall e :: e in r.contents ==> e in store && Eligible(e, lastId))
        && (forall e :: e in store && Eligible(e, lastId) && addonActive &&
                        (|r.contents| < amount || (|r.contents| > 0 && Key(e) <= Key(r.contents[|r.contents| - 1]))) ==>
                          e in r.contents))
  {
    var r := ContentInRange(store, lastId, amount, addonActive, entityDefined, primaryKeyColumns);
    if r.Fetched? && addonActive {
      var E := After(store, lastId);
      AfterMembers(store, lastId);
      AfterAscending(store, lastId);
      var rs := r.contents;
      assert rs == Take(E, amount);
      assert forall e :: e in rs ==> e in E;
      assert Ascending(rs);
      forall e | e in store && Eligible(e, lastId) && (|rs| < amount || (|rs| > 0 && Key(e) <= Key(rs[|rs| - 1])))
        ensures e in rs
      {
        assert e in E;
        if |E| > amount {
          var j :| 0 <= j < |E| && E[j] == e;
          assert rs == E[..amount];
          assert rs[j] == e;
        }
      }
    }
  }

  /** An indexer paging through the table from `start` in batches of `amount`, each
      batch starting after the last key of the one before. It returns the rows it
      visited and the cursors it passed. */
  method IndexInBatches(store: seq<WarningLogEntity>, start: int, amount: nat)
    returns (visited: seq<WarningLogEntity>, cursors: seq<int>)
    requires Ascending(store)
    requires amount > 0
    ensures visited == After(store, start)
    ensures Ascending(visited)
    ensures forall e :: e in visited <==> e in store && Eligible(e, start)
    ensures |cursors| > 0 && cursors[0] == start
    ensures forall i, j :: 0 <= i < j < |cursors| ==> cursors[i] < cursors[j]
  {
    var lastId := start;
    visited := [];
    cursors := [];
    while true
      invariant visited + After(store, lastId) == After(store, start)
      invariant lastId >= start
      invariant forall i, j :: 0 <= i < j < |cursors| ==> cursors[i] < cursors[j]
      invariant forall i :: 0 <= i < |cursors| ==> cursors[i] < lastId
      invariant |cursors| == 0 ==> lastId == start
      invariant |cursors| > 0 ==> cursors[0] == start
      decreases |After(store, lastId)|
    {
      var r := GetContentInRange(store, lastId, amount, true, true, 1);
      var batch := r.contents;
      BatchStep(store, lastId, amount);
      cursors := cursors + [lastId];
      if |batch| == 0 {
        break;
      }
      var next := Key(batch[|batch| - 1]);
      assert visited + batch + After(store, next) == visited + After(store, lastId);
      visited := visited + batch;
      lastId := next;
    }
    assert visited == After(store, start);
    AfterAscending(store, start);
    AfterMembers(store, start);
  }
}
