/** The dashboard's list de-duplication (`uniqueById`) and the effect that loads
    the signed-in user's appointments and health records into the store. */
module Dashboard {
  import opened Entities
  import opened ClientStore

  /** The set of keys occurring in `xs`. */
  function Ids<T, K>(xs: seq<T>, id: T -> K): set<K>
  {
    set i | 0 <= i < |xs| :: id(xs[i])
  }

  /** No earlier element of `xs` has the key of `xs[i]`. */
  predicate IsFirst<T, K(==)>(xs: seq<T>, id: T -> K, i: int)
    requires 0 <= i < |xs|
  {
    forall j :: 0 <= j < i ==> id(xs[j]) != id(xs[i])
  }

  /** No two elements of `xs` share a key. */
  predicate DistinctIds<T, K(==)>(xs: seq<T>, id: T -> K)
  {
    forall a, b :: 0 <= a < b < |xs| ==> id(xs[a]) != id(xs[b])
  }

  /** The reference definition: the elements of `xs` that are the first with their key, in order. */
  function FirstOccurrences<T, K(==)>(xs: seq<T>, id: T -> K): (r: seq<T>)
    ensures |r| <= |xs|
    decreases |xs|
  {
    if xs == [] then []
    else FirstOccurrences(xs[..|xs| - 1], id) + (if IsFirst(xs, id, |xs| - 1) then [xs[|xs| - 1]] else [])
  }

  /** `uniqueById`: one filter pass that remembers the keys seen so far. */
  method UniqueById<T, K(==)>(xs: seq<T>, id: T -> K) returns (r: seq<T>)
    ensures r == FirstOccurrences(xs, id)
  {
    var seen: set<K> := {};
    r := [];
    var i := 0;
    while i < |xs|
      invariant 0 <= i <= |xs|
      invariant seen == Ids(xs[..i], id)
      invariant r == FirstOccurrences(xs[..i], id)
    {
      var item := xs[i];
      ghost var prefix := xs[..i + 1];
      assert prefix[..i] == xs[..i];
      assert IsFirst(prefix, id, i) <==> id(item) !in seen;
      assert Ids(prefix, id) == seen + {id(item)} by {
        assert forall j :: 0 <= j < i + 1 ==> prefix[j] == xs[j];
      }
      if id(item) !in seen {
        seen := seen + {id(item)};
        r := r + [item];
      }
      i := i + 1;
    }
    assert xs[..i] == xs;
  }

  /** Dropping later elements does not change whether an earlier one is first. */
  lemma IsFirstPrefix<T, K>(xs: seq<T>, id: T -> K, n: int, i: int)
    requires 0 <= i < n <= |xs|
    ensures IsFirst(xs[..n], id, i) <==> IsFirst(xs, id, i)
  {
  }

  /** The result carries exactly the keys of the input. */
  lemma {:induction false} SameIds<T, K>(xs: seq<T>, id: T -> K)
    ensures Ids(FirstOccurrences(xs, id), id) == Ids(xs, id)
    decreases |xs|
  {
    if xs != [] {
      var n := |xs| - 1;
      var p := xs[..n];
      var rp := FirstOccurrences(p, id);
      SameIds(p, id);
      var r := FirstOccurrences(xs, id);
      assert Ids(xs, id) == Ids(p, id) + {id(xs[n])} by {
        assert forall j :: 0 <= j < n ==> p[j] == xs[j];
        assert forall k :: k in Ids(xs, id) ==> k in Ids(p, id) + {id(xs[n])} by {
          forall k | k in Ids(xs, id) ensures k in Ids(p, id) + {id(xs[n])} {
            var j :| 0 <= j < |xs| && id(xs[j]) == k;
            if j < n { assert id(p[j]) == k; }
          }
        }
      }
      if IsFirst(xs, id, n) {
        assert r == rp + [xs[n]];
        assert forall j :: 0 <= j < |rp| ==> r[j] == rp[j];
        assert Ids(r, id) == Ids(rp, id) + {id(xs[n])} by {
          forall k | k in Ids(r, id) ensures k in Ids(rp, id) + {id(xs[n])} {
            var j :| 0 <= j < |r| && id(r[j]) == k;
            if j < |rp| { assert id(rp[j]) == k; }
          }
          assert id(r[|rp|]) == id(xs[n]);
        }
      } else {
        assert r == rp;
        var j :| 0 <= j < n && id(xs[j]) == id(xs[n]);
        assert id(p[j]) == id(xs[n]);
      }
    }
  }

  /** No two elements of the result share a key. */
  lemma {:induction false} NoDuplicateIds<T, K>(xs: seq<T>, id: T -> K)
    ensures DistinctIds(FirstOccurrences(xs, id), id)
    decreases |xs|
  {
    if xs != [] {
      var n := |xs| - 1;
      var p := xs[..n];
      var rp := FirstOccurrences(p, id);
      NoDuplicateIds(p, id);
      if IsFirst(xs, id, n) {
        var r := rp + [xs[n]];
        assert r == FirstOccurrences(xs, id);
        SameIds(p, id);
        forall a | 0 <= a < |rp| ensures id(rp[a]) != id(xs[n]) {
          assert id(rp[a]) in Ids(rp, id);
          var j :| 0 <= j < |p| && id(p[j]) == id(rp[a]);
          assert p[j] == xs[j];
        }
        forall a, b | 0 <= a < b < |r| ensures id(r[a]) != id(r[b]) {
          if b < |rp| {
            assert r[a] == rp[a] && r[b] == rp[b];
          } else {
            assert r[a] == rp[a] && r[b] == xs[n];
          }
        }
      }
    }
  }

  /** Membership: an item is kept iff it is the first with its key somewhere in the input. */
  lemma {:induction false} KeptAreFirsts<T, K>(xs: seq<T>, id: T -> K, x: T)
    ensures x in FirstOccurrences(xs, id) <==> exists i :: 0 <= i < |xs| && xs[i] == x && IsFirst(xs, id, i)
    decreases |xs|
  {
    if xs != [] {
      var n := |xs| - 1;
      var p := xs[..n];
      KeptAreFirsts(p, id, x);
      forall i | 0 <= i < n ensures IsFirst(p, id, i) <==> IsFirst(xs, id, i) {
        IsFirstPrefix(xs, id, n, i);
      }
      if x in FirstOccurrences(xs, id) {
        if x !in FirstOccurrences(p, id) {
          assert x == xs[n] && IsFirst(xs, id, n);
        } else {
          var i :| 0 <= i < n && p[i] == x && IsFirst(p, id, i);
          assert xs[i] == x && IsFirst(xs, id, i);
        }
      }
      if exists i :: 0 <= i < |xs| && xs[i] == x && IsFirst(xs, id, i) {
        var i :| 0 <= i < |xs| && xs[i] == x && IsFirst(xs, id, i);
        if i < n {
          assert p[i] == x && IsFirst(p, id, i);
        } else {
          assert FirstOccurrences(xs, id) == FirstOccurrences(p, id) + [xs[n]];
        }
      }
    }
  }

  /** `idx` lists, in increasing order, input positions holding the elements of `s`. */
  predicate Embedding<T(==)>(s: seq<T>, t: seq<T>, idx: seq<int>)
  {
    && |idx| == |s|
    && (forall k :: 0 <= k < |idx| ==> 0 <= idx[k] < |t| && s[k] == t[idx[k]])
    && (forall a, b :: 0 <= a < b < |idx| ==> idx[a] < idx[b])
  }

  ghost predicate IsSubsequence<T>(s: seq<T>, t: seq<T>)
  {
    exists idx :: Embedding(s, t, idx)
  }

  /** The positions of the kept elements. */
  function KeptPositions<T, K(==)>(xs: seq<T>, id: T -> K): seq<int>
    decreases |xs|
  {
    if xs == [] then []
    else KeptPositions(xs[..|xs| - 1], id) + (if IsFirst(xs, id, |xs| - 1) then [|xs| - 1] else [])
  }

  lemma {:induction false} KeptPositionsEmbed<T, K>(xs: seq<T>, id: T -> K)
    ensures Embedding(FirstOccurrences(xs, id), xs, KeptPositions(xs, id))
    ensures forall k :: 0 <= k < |KeptPositions(xs, id)| ==> KeptPositions(xs, id)[k] < |xs|
    decreases |xs|
  {
    if xs != [] {
      var n := |xs| - 1;
      var p := xs[..n];
      KeptPositionsEmbed(p, id);
      var rp, ip := FirstOccurrences(p, id), KeptPositions(p, id);
      assert forall k :: 0 <= k < |ip| ==> xs[ip[k]] == p[ip[k]];
      if IsFirst(xs, id, n) {
        var r, ix := rp + [xs[n]], ip + [n];
        assert r == FirstOccurrences(xs, id) && ix == KeptPositions(xs, id);
        assert forall k :: 0 <= k < |ip| ==> ix[k] == ip[k] && r[k] == rp[k];
      }
    }
  }

  /** The result is a subsequence of the input: relative order is preserved. */
  lemma OrderPreserved<T, K>(xs: seq<T>, id: T -> K)
    ensures IsSubsequence(FirstOccurrences(xs, id), xs)
  {
    KeptPositionsEmbed(xs, id);
  }

  /** A list whose keys are already distinct is returned unchanged. */
  lemma {:induction false} DistinctUnchanged<T, K>(xs: seq<T>, id: T -> K)
    requires DistinctIds(xs, id)
    ensures FirstOccurrences(xs, id) == xs
    decreases |xs|
  {
    if xs != [] {
      var n := |xs| - 1;
      var p := xs[..n];
      assert DistinctIds(p, id) by {
        assert forall j :: 0 <= j < n ==> p[j] == xs[j];
      }
      DistinctUnchanged(p, id);
      assert IsFirst(xs, id, n);
      assert p + [xs[n]] == xs;
    }
  }

  /** `uniqueById` is idempotent. */
  lemma Idempotent<T, K>(xs: seq<T>, id: T -> K)
    ensures FirstOccurrences(FirstOccurrences(xs, id), id) == FirstOccurrences(xs, id)
  {
    NoDuplicateIds(xs, id);
    DistinctUnchanged(FirstOccurrences(xs, id), id);
  }

  /** Nothing is dropped exactly when all keys are distinct. */
  lemma {:induction false} LengthKeptIffDistinct<T, K>(xs: seq<T>, id: T -> K)
    ensures |FirstOccurrences(xs, id)| == |xs| <==> DistinctIds(xs, id)
    decreases |xs|
  {
    if DistinctIds(xs, id) {
      DistinctUnchanged(xs, id);
    } else if xs != [] {
      var n := |xs| - 1;
      var p := xs[..n];
      if IsFirst(xs, id, n) {
        assert !DistinctIds(p, id) by {
          var a, b :| 0 <= a < b < |xs| && id(xs[a]) == id(xs[b]);
          assert b < n;
          assert p[a] == xs[a] && p[b] == xs[b];
        }
        LengthKeptIffDistinct(p, id);
      }
    }
  }

  /** A non-empty input keeps at least its first element. */
  lemma {:induction false} NonEmptyKeeps<T, K>(xs: seq<T>, id: T -> K)
    requires xs != []
    ensures FirstOccurrences(xs, id) != [] && FirstOccurrences(xs, id)[0] == xs[0]
    decreases |xs|
  {
    if |xs| > 1 {
      var p := xs[..|xs| - 1];
      NonEmptyKeeps(p, id);
      assert p[0] == xs[0];
    } else {
      assert IsFirst(xs, id, 0);
    }
  }

  /** The health-data list after one load: the previous contents, then the de-duplicated rows. */
  function HealthAfterLoad(stored: seq<HealthRecord>, fetched: Option<seq<HealthRecord>>): seq<HealthRecord>
  {
    stored + FirstOccurrences(OrEmpty(fetched), HealthRecordId)
  }

  /** Loading the same non-empty rows twice leaves a repeated key: no de-duplication
      against what the store already holds. */
  lemma ReloadRepeatsIds(stored: seq<HealthRecord>, rows: seq<HealthRecord>)
    requires rows != []
    ensures !DistinctIds(HealthAfterLoad(HealthAfterLoad(stored, Some(rows)), Some(rows)), HealthRecordId)
  {
    var u := FirstOccurrences(rows, HealthRecordId);
    NonEmptyKeeps(rows, HealthRecordId);
    var s := HealthAfterLoad(HealthAfterLoad(stored, Some(rows)), Some(rows));
    assert s == stored + u + u;
    assert s[|stored|] == u[0] && s[|stored| + |u|] == u[0];
  }

  /** A query the effect sends: rows of `table` whose `column` equals `value`. */
  datatype Query = Query(table: string, column: string, value: string)

  /** The effect of `fetchData`, run when `user` is set: the fetched rows are the
      backend's answers (`None` when it returns no data). Returns the queries sent. */
  method LoadDashboard(store: Store, appointmentRows: Option<seq<Appointment>>,
                       healthRows: Option<seq<HealthRecord>>) returns (queries: seq<Query>)
    modifies store
    ensures store.user == old(store.user)
    ensures old(store.user).None? ==>
      queries == [] && store.appointments == old(store.appointments) && store.healthData == old(store.healthData)
    ensures old(store.user).Some? ==>
      && queries == [Query("appointments", "user_id", old(store.user).value.id),
                     Query("health_data", "user_id", old(store.user).value.id)]
      && store.appointments == FirstOccurrences(OrEmpty(appointmentRows), AppointmentId)
      && store.healthData == HealthAfterLoad(old(store.healthData), healthRows)
    ensures old(store.user).Some? && appointmentRows.None? ==> store.appointments == []
  {
    if store.user.None? {
      return [];
    }
    var uid := store.user.value.id;
    queries := [Query("appointments", "user_id", uid)];
    var appts := UniqueById(OrEmpty(appointmentRows), AppointmentId);
    store.SetAppointments(appts);
    queries := queries + [Query("health_data", "user_id", uid)];
    var rows := UniqueById(OrEmpty(healthRows), HealthRecordId);
    var i := 0;
    while i < |rows|
      invariant 0 <= i <= |rows|
      invariant store.healthData == old(store.healthData) + rows[..i]
      invariant store.user == old(store.user) && store.appointments == appts
    {
      store.AddHealthData(rows[i]);
      assert rows[..i + 1] == rows[..i] + [rows[i]];
      i := i + 1;
    }
    assert rows[..i] == rows;
  }
}
