/** The server's registry of functions and the choice of a worker for a call. */
module FuncRegistry {
  import opened Bytes
  import opened Dispatch
  import opened ServerObjects

  const LOADBLANCE_HASH := 1

  class Func {
    var FuncName: Bytes
    var WorkerNum: int
    var LoadBlanceType: int
    var Workers: seq<SWorker>
    constructor (name: Bytes)
      ensures FuncName == name && WorkerNum == 0 && LoadBlanceType == 1 && Workers == []
    {
      FuncName, WorkerNum, LoadBlanceType, Workers := name, 0, LOADBLANCE_HASH, [];
    }
  }

  // ---------------------------------------------------------------- abstract registry

  type Reg = map<Bytes, seq<SWorker>>

  function Listed(r: Reg, name: Bytes): seq<SWorker> { if name in r then r[name] else [] }

  predicate Has(ws: seq<SWorker>, id: Wid) { exists i :: 0 <= i < |ws| && ws[i].WorkerId == id }

  /** The list without its first worker of that id. */
  function DelOne(ws: seq<SWorker>, id: Wid): (r: seq<SWorker>)
    ensures |r| == if Has(ws, id) then |ws| - 1 else |ws|
  {
    if ws == [] then []
    else if ws[0].WorkerId == id then ws[1..]
    else
      assert Has(ws, id) ==> Has(ws[1..], id) by {
        if Has(ws, id) {
          var i :| 0 <= i < |ws| && ws[i].WorkerId == id;
          assert ws[1..][i - 1].WorkerId == id;
        }
      }
      assert Has(ws[1..], id) ==> Has(ws, id) by {
        if Has(ws[1..], id) {
          var i :| 0 <= i < |ws[1..]| && ws[1..][i].WorkerId == id;
          assert ws[i + 1].WorkerId == id;
        }
      }
      [ws[0]] + DelOne(ws[1..], id)
  }

  predicate OnlyOne(ws: seq<SWorker>, id: Wid) { |ws| == 1 && ws[0].WorkerId == id }

  /** One entry of `id` leaves each function in `names`; a function whose last worker leaves is forgotten. */
  function Clean(r: Reg, id: Wid, names: set<Bytes>): Reg
  {
    map n | n in r && !(n in names && OnlyOne(r[n], id)) :: if n in names then DelOne(r[n], id) else r[n]
  }

  lemma {:induction false} DelOneAt(ws: seq<SWorker>, id: Wid, k: nat)
    requires k < |ws| && ws[k].WorkerId == id && forall i :: 0 <= i < k ==> ws[i].WorkerId != id
    ensures DelOne(ws, id) == ws[..k] + ws[k + 1..] && Has(ws, id)
  {
    if k == 0 {
      assert ws[..0] + ws[1..] == ws[1..];
    } else {
      var tail := ws[1..];
      assert tail[k - 1] == ws[k] && forall i :: 0 <= i < k - 1 ==> tail[i] == ws[i + 1];
      DelOneAt(tail, id, k - 1);
      assert ws[0].WorkerId != id;
      assert ws[..k] == [ws[0]] + tail[..k - 1] && ws[k + 1..] == tail[k..];
      assert [ws[0]] + (tail[..k - 1] + tail[k..]) == ws[..k] + ws[k + 1..];
    }
  }

  lemma DelOneAbsent(ws: seq<SWorker>, id: Wid)
    requires !Has(ws, id)
    ensures DelOne(ws, id) == ws
  {
    if ws != [] {
      forall i | 0 <= i < |ws[1..]| ensures ws[1..][i].WorkerId != id { assert ws[1..][i] == ws[i + 1]; }
      DelOneAbsent(ws[1..], id);
      assert ws[0].WorkerId != id;
    }
  }

  lemma HasTail(ws: seq<SWorker>, id: Wid)
    requires Has(ws, id) && ws[0].WorkerId != id
    ensures Has(ws[1..], id)
  {
    var i :| 0 <= i < |ws| && ws[i].WorkerId == id;
    assert ws[1..][i - 1].WorkerId == id;
  }

  lemma OneMore(first: SWorker, all: seq<SWorker>, less: seq<SWorker>, w: SWorker)
    requires multiset(all) == multiset(less) + multiset{w}
    ensures multiset([first] + all) == multiset([first] + less) + multiset{w}
  {
  }

  /** As a multiset, deletion takes away one worker of that id, or nothing. */
  lemma {:induction false} DelOneTakesOne(ws: seq<SWorker>, id: Wid)
    ensures if Has(ws, id)
            then exists w :: w in ws && w.WorkerId == id && multiset(ws) == multiset(DelOne(ws, id)) + multiset{w}
            else DelOne(ws, id) == ws
  {
    if !Has(ws, id) {
      DelOneAbsent(ws, id);
    } else if ws[0].WorkerId == id {
      assert ws == [ws[0]] + ws[1..];
    } else {
      var tail := ws[1..];
      HasTail(ws, id);
      DelOneTakesOne(tail, id);
      var w :| w in tail && w.WorkerId == id && multiset(tail) == multiset(DelOne(tail, id)) + multiset{w};
      assert DelOne(ws, id) == [ws[0]] + DelOne(tail, id);
      hide DelOne, Has;
      OneMore(ws[0], tail, DelOne(tail, id), w);
      assert ws == [ws[0]] + tail;
    }
  }

  lemma CleanMore(r: Reg, id: Wid, names: set<Bytes>, n: Bytes)
    requires n !in names
    ensures Clean(Clean(r, id, names), id, {n}) == Clean(r, id, names + {n})
  {
  }

  lemma SizeAdd<V>(m: map<Bytes, V>, k: Bytes, v: V)
    requires k !in m
    ensures |m[k := v]| == |m| + 1
  {
    assert m[k := v].Keys == m.Keys + {k};
  }

  lemma SizeRemove<V>(m: map<Bytes, V>, k: Bytes)
    ensures if k in m then |m - {k}| == |m| - 1 else m - {k} == m
  {
    if k in m { assert (m - {k}).Keys == m.Keys - {k}; }
  }

  // ---------------------------------------------------------------- the registry object

  ghost predicate Agrees(f: Func, n: Bytes)
    reads f
  {
    f.FuncName == n && f.WorkerNum == |f.Workers| && f.LoadBlanceType == LOADBLANCE_HASH
  }

  ghost predicate AllAgree(funcs: map<Bytes, Func>)
    reads funcs.Values
  {
    [] !in funcs && forall n :: n in funcs ==> Agrees(funcs[n], n)
  }

  ghost function Lists(funcs: map<Bytes, Func>): Reg
    reads funcs.Values
  {
    map n | n in funcs :: funcs[n].Workers
  }

  lemma StoreFunc(funcs: map<Bytes, Func>, name: Bytes, f: Func)
    requires AllAgree(funcs) && Agrees(f, name) && name != []
    ensures AllAgree(funcs[name := f]) && Lists(funcs[name := f]) == Lists(funcs)[name := f.Workers]
  {
  }

  lemma DeleteFunc(funcs: map<Bytes, Func>, name: Bytes)
    requires AllAgree(funcs)
    ensures AllAgree(funcs - {name}) && Lists(funcs - {name}) == Lists(funcs) - {name}
  {
    hide Agrees;
    var less := funcs - {name};
    assert forall n :: n in less ==> n in funcs && less[n] == funcs[n];
  }

  lemma StoredAlready(funcs: map<Bytes, Func>, name: Bytes)
    requires name in funcs
    ensures Lists(funcs)[name := Listed(Lists(funcs), name)] == Lists(funcs)
  {
  }

  class FuncMap {
    var FuncNum: int
    var Funcs: map<Bytes, Func>

    /** Counters agree with the lists, names with the keys; no function has the empty name. */
    ghost predicate Valid()
      reads this, Funcs.Values
    {
      FuncNum == |Funcs| && AllAgree(Funcs)
    }

    ghost function View(): Reg
      reads this, Funcs.Values
    {
      Lists(Funcs)
    }

    constructor ()
      ensures Valid() && View() == map[] && Funcs == map[]
    {
      FuncNum, Funcs := 0, map[];
    }

    /** The function's record, made on first registration. */
    method LoadOrStore(name: Bytes)
      requires Valid() && name != []
      modifies this
      ensures Valid() && name in Funcs && fresh(Funcs.Values - old(Funcs.Values))
      ensures name in old(Funcs) ==> Funcs == old(Funcs)
      ensures View() == old(View())[name := Listed(old(View()), name)]
    {
      if name !in Funcs {
        var f := new Func(name);
        SizeAdd(Funcs, name, f);
        StoreFunc(Funcs, name, f);
        hide Lists, AllAgree;
        FuncNum := FuncNum + 1;
        Funcs := Funcs[name := f];
      } else {
        StoredAlready(Funcs, name);
      }
    }

    method Append(name: Bytes, worker: SWorker)
      requires Valid() && name in Funcs
      modifies Funcs[name]
      ensures Valid() && View() == old(View())[name := old(View())[name] + [worker]]
    {
      var f := Funcs[name];
      f.WorkerNum := f.WorkerNum + 1;
      f.Workers := f.Workers + [worker];
    }

    method AddFunc(worker: SWorker?, name: Bytes) returns (ok: bool)
      requires Valid()
      modifies this, Funcs.Values
      ensures Valid() && ok == (worker != null && name != [])
      ensures View() == if ok then old(View())[name := Listed(old(View()), name) + [worker]] else old(View())
    {
      hide Valid;
      if worker == null || |name| == 0 { return false; }
      LoadOrStore(name);
      Append(name, worker);
      return true;
    }

    method DelAllFunc(name: Bytes) returns (ok: bool)
      requires Valid()
      modifies this
      ensures Valid() && ok == (name in old(Funcs)) && Funcs == old(Funcs) - {name}
      ensures View() == old(View()) - {name}
    {
      hide Lists, AllAgree;
      DeleteFunc(Funcs, name);
      SizeRemove(Funcs, name);
      ok := name in Funcs;
      if ok {
        Funcs := Funcs - {name};
        FuncNum := FuncNum - 1;
      }
    }

    /** Removes the first worker of that id from one function's list. */
    method RemoveFirst(name: Bytes, workerId: Wid) returns (found: bool)
      requires Valid() && name in Funcs
      modifies Funcs[name]
      ensures Valid() && found == Has(old(View())[name], workerId)
      ensures View() == old(View())[name := DelOne(old(View())[name], workerId)]
    {
      hide DelOne, Has;
      var f := Funcs[name];
      var k := 0;
      while k < |f.Workers|
        invariant 0 <= k <= |f.Workers| && Valid() && View() == old(View()) && f.Workers == old(f.Workers)
        invariant forall i :: 0 <= i < k ==> f.Workers[i].WorkerId != workerId
      {
        if f.Workers[k].WorkerId == workerId {
          DelOneAt(f.Workers, workerId, k);
          f.Workers := f.Workers[..k] + f.Workers[k + 1..];
          f.WorkerNum := f.WorkerNum - 1;
          return true;
        }
        k := k + 1;
      }
      NotListed(f.Workers, workerId);
      return false;
    }

    method DelWorkerFunc(workerId: Wid, name: Bytes) returns (ok: bool)
      requires Valid()
      modifies this, Funcs.Values
      ensures Valid() && ok == Has(Listed(old(View()), name), workerId)
      ensures View() == Clean(old(View()), workerId, {name})
      ensures ok ==> (name in View() <==> |old(View())[name]| > 1)
      ensures Funcs == old(Funcs) || Funcs == old(Funcs) - {name}
    {
      if |name| == 0 || name !in Funcs || Funcs[name].WorkerNum == 0 {
        CleanNothing(View(), workerId, name);
        return false;
      }
      ghost var r := View();
      ok := RemoveFirst(name, workerId);
      hide Valid, DelOne, Has;
      if !ok {
        CleanNothing(r, workerId, name);
        DelOneAbsent(r[name], workerId);
        return false;
      }
      CleanName(r, workerId, name);
      if Funcs[name].WorkerNum == 0 {
        var _ := DelAllFunc(name);
      }
    }

    /** `Range` visits every key once, in any order. */
    method CleanWorkerFunc(workerId: Wid) returns (ok: bool)
      requires Valid()
      modifies this, Funcs.Values
      ensures Valid() && ok && Funcs.Values <= old(Funcs.Values)
      ensures View() == Clean(old(View()), workerId, old(View()).Keys)
    {
      hide Valid, DelOne, Has, Clean;
      var todo := Funcs.Keys;
      ghost var all, r := todo, View();
      assert r.Keys == all;
      CleanNone(r, workerId);
      assert all - todo == {};
      while todo != {}
        invariant todo <= all && Valid() && Funcs.Values <= old(Funcs.Values)
        invariant View() == Clean(r, workerId, all - todo)
      {
        var key :| key in todo;
        var _ := DelWorkerFunc(workerId, key);
        CleanMore(r, workerId, all - todo, key);
        assert all - todo + {key} == all - (todo - {key});
        todo := todo - {key};
      }
      assert all - todo == all;
      return true;
    }

    /** `DelWorker` takes one entry out of every list but keeps functions whose list is then empty. */
    method DelWorker(workerId: Wid) returns (ok: bool)
      requires Valid()
      modifies Funcs.Values
      ensures Valid() && ok
      ensures View() == Drop(old(View()), workerId, old(Funcs.Keys)) && View().Keys == old(View()).Keys
    {
      if FuncNum == 0 {
        DropNone(View(), workerId);
        assert Funcs.Keys == {};
      } else {
        RemoveEverywhere(workerId);
      }
      return true;
    }

    method RemoveEverywhere(workerId: Wid)
      requires Valid()
      modifies Funcs.Values
      ensures Valid() && View() == Drop(old(View()), workerId, old(Funcs.Keys))
    {
      var todo := Funcs.Keys;
      ghost var all, r := todo, View();
      assert r.Keys == all;
      hide *;
      DropNone(r, workerId);
      assert all - todo == {};
      while todo != {}
        invariant todo <= all && all == Funcs.Keys && r.Keys == all && Valid()
        invariant View() == Drop(r, workerId, all - todo)
      {
        var key :| key in todo;
        var _ := RemoveFirst(key, workerId);
        DropMore(r, workerId, all - todo, key);
        assert all - todo + {key} == all - (todo - {key});
        todo := todo - {key};
      }
      assert all - todo == all;
    }

    /**
     A random choice among the workers registered for `name`; choices whose connection is gone are evicted
     from every function, and the choice is made again. When the same id always means the same connection, a
     live worker is found if there is one, and no live entry is evicted.
     */
    method GetBestWorker(name: Bytes) returns (worker: SWorker?, ghost evicted: seq<SWorker>)
      requires Valid()
      modifies this, Funcs.Values
      ensures Valid() && Evicted(old(View()), name, evicted) && View() == CleanAll(old(View()), evicted)
      ensures worker != null ==> worker in Listed(View(), name) && worker in Listed(old(View()), name)
                                 && worker.Connect.RunWorker != null
      ensures worker == null ==> Listed(View(), name) == []
      ensures old(UniqueIds(View())) ==>
                && UniqueIds(View()) && SameLive(View(), old(View()), old(LiveConns(View())))
                && (worker == null ==> forall w :: w in Listed(old(View()), name) ==>
                    w.Connect !in old(LiveConns(View())))
    {
      hide Valid, View, UniqueIds, LiveOf, SameLive, Listed, Evicted, CleanAll;
      AllLive(View());
      worker, evicted := Search(name, LiveConns(View()));
    }

    /** The retry loop. */
    method Search(name: Bytes, ghost conns: set<Connect>) returns (worker: SWorker?, ghost evicted: seq<SWorker>)
      requires Valid() && AllRunning(conns)
      modifies this, Funcs.Values
      ensures Valid() && Evicted(old(View()), name, evicted) && View() == CleanAll(old(View()), evicted)
      ensures worker != null ==> worker in Listed(View(), name) && worker in Listed(old(View()), name)
                                 && worker.Connect.RunWorker != null
      ensures worker == null ==> Listed(View(), name) == []
      ensures old(UniqueIds(View())) ==>
                && UniqueIds(View()) && SameLive(View(), old(View()), conns)
                && (worker == null ==> forall w :: w in Listed(old(View()), name) ==> w.Connect !in conns)
    {
      hide Valid, View, UniqueIds, LiveOf, LiveConns, SameLive, Listed, Evicted, CleanAll;
      ghost var r := View();
      SameLiveRefl(r, conns);
      evicted := [];
      NoneEvicted(r, name);
      while true
        invariant Valid() && Funcs.Values <= old(Funcs.Values) && AllRunning(conns)
        invariant Evicted(r, name, evicted) && View() == CleanAll(r, evicted)
        invariant UniqueIds(r) ==> UniqueIds(View()) && SameLive(View(), r, conns)
        invariant forall w :: w in Listed(View(), name) ==> w in Listed(r, name)
        decreases |Listed(View(), name)|
      {
        worker := Choose(name);
        if worker == null {
          if UniqueIds(r) { NoneLive(View(), r, conns, name); }
          return;
        }
        if worker.Connect.RunWorker != null { return; }
        ghost var before := View();
        CloseSelfWorker(worker, name, conns);
        if UniqueIds(r) { SameLiveTrans(View(), before, r, conns); }
        OneEvicted(r, name, evicted, worker);
        evicted := evicted + [worker];
      }
    }

    /** A worker whose connection is gone is taken out of every function. */
    method CloseSelfWorker(best: SWorker, ghost name: Bytes, ghost conns: set<Connect>)
      requires Valid() && name in View() && best in View()[name]
      requires best.Connect.RunWorker == null && AllRunning(conns)
      modifies this, Funcs.Values
      ensures Valid() && Funcs.Values <= old(Funcs.Values) && AllRunning(conns)
      ensures View() == Clean(old(View()), best.WorkerId, old(View()).Keys)
      ensures |Listed(View(), name)| < |Listed(old(View()), name)|
      ensures forall w :: w in Listed(View(), name) ==> w in Listed(old(View()), name)
      ensures old(UniqueIds(View())) ==> UniqueIds(View()) && SameLive(View(), old(View()), conns)
    {
      assert best.Connect !in conns;
      hide *;
      EvictOne(View(), best, name, conns);
      var _ := CleanWorkerFunc(best.WorkerId);
    }

    /** `rand.Int() % WorkerNum`: any position of the list. */
    method Choose(name: Bytes) returns (best: SWorker?)
      requires Valid()
      ensures best == null ==> Listed(View(), name) == []
      ensures best != null ==> name in View() && best in View()[name] && best in Listed(View(), name)
    {
      if name !in Funcs || Funcs[name].WorkerNum <= 0 { return null; }
      var f := Funcs[name];
      var rkey :| 0 <= rkey < f.WorkerNum;
      return f.Workers[rkey];
    }
  }

  // ---------------------------------------------------------------- evictions

  /** The registry after these workers were taken out of every function, one after the other. */
  function CleanAll(r: Reg, ws: seq<SWorker>): Reg
  {
    if ws == [] then r else
      var n := |ws| - 1;
      var before := CleanAll(r, ws[..n]);
      Clean(before, ws[n].WorkerId, before.Keys)
  }

  /** Each of the workers was listed for `name` when its turn came, and its connection was gone. */
  ghost predicate Evicted(r: Reg, name: Bytes, ws: seq<SWorker>)
    reads set w | w in ws :: w.Connect
  {
    forall i :: 0 <= i < |ws| ==> ws[i] in Listed(CleanAll(r, ws[..i]), name) && ws[i].Connect.RunWorker == null
  }

  lemma NoneEvicted(r: Reg, name: Bytes)
    ensures Evicted(r, name, []) && CleanAll(r, []) == r
  {
  }

  lemma OneEvicted(r: Reg, name: Bytes, ws: seq<SWorker>, w: SWorker)
    requires Evicted(r, name, ws) && w in Listed(CleanAll(r, ws), name) && w.Connect.RunWorker == null
    ensures Evicted(r, name, ws + [w])
    ensures CleanAll(r, ws + [w]) == Clean(CleanAll(r, ws), w.WorkerId, CleanAll(r, ws).Keys)
  {
    hide Clean, Listed;
    assert (ws + [w])[..|ws|] == ws;
    forall i | 0 <= i < |ws| + 1
      ensures (ws + [w])[i] in Listed(CleanAll(r, (ws + [w])[..i]), name) && (ws + [w])[i].Connect.RunWorker == null
    {
      assert i < |ws| ==> (ws + [w])[..i] == ws[..i];
    }
  }

  /** A worker that is gone and was registered once for each of two functions is forgotten in both. */
  lemma ForgottenEverywhere(f: Bytes, g: Bytes, w: SWorker)
    requires f != g
    ensures CleanAll(map[f := [w], g := [w]], [w]) == map[]
  {
    assert [w][..0] == [];
  }

  // ---------------------------------------------------------------- live workers

  /** The connections of registered workers that still have a running worker. */
  ghost function LiveConns(r: Reg): set<Connect>
    reads set n, w | n in r && w in r[n] :: w.Connect
  {
    set n, w | n in r && w in r[n] && w.Connect.RunWorker != null :: w.Connect
  }

  /** The entries of a list whose connection is in `conns`, in order. */
  ghost function LiveOf(ws: seq<SWorker>, conns: set<Connect>): seq<SWorker>
  {
    if ws == [] then [] else (if ws[0].Connect in conns then [ws[0]] else []) + LiveOf(ws[1..], conns)
  }

  /** Connection ids are unique: the same id means the same connection. */
  ghost predicate UniqueIds(r: Reg)
  {
    forall m, n, v, w :: m in r && n in r && v in r[m] && w in r[n] && v.WorkerId == w.WorkerId ==>
      v.Connect == w.Connect
  }

  /** Both registries list the same live workers, in the same order, for every function. */
  ghost predicate SameLive(a: Reg, b: Reg, conns: set<Connect>)
  {
    forall n :: LiveOf(Listed(a, n), conns) == LiveOf(Listed(b, n), conns)
  }

  ghost predicate AllRunning(conns: set<Connect>)
    reads conns
  {
    forall c :: c in conns ==> c.RunWorker != null
  }

  lemma AllLive(r: Reg)
    ensures AllRunning(LiveConns(r))
  {
  }

  lemma SameLiveRefl(r: Reg, conns: set<Connect>)
    ensures SameLive(r, r, conns)
  {
    hide LiveOf;
  }

  lemma SameLiveTrans(a: Reg, b: Reg, c: Reg, conns: set<Connect>)
    requires SameLive(a, b, conns) && SameLive(b, c, conns)
    ensures SameLive(a, c, conns)
  {
    hide LiveOf;
  }

  lemma {:induction false} LiveIn(ws: seq<SWorker>, w: SWorker, conns: set<Connect>)
    ensures w in LiveOf(ws, conns) <==> w in ws && w.Connect in conns
  {
    if ws != [] {
      LiveIn(ws[1..], w, conns);
      assert ws == [ws[0]] + ws[1..];
    }
  }

  lemma NoneLive(a: Reg, r: Reg, conns: set<Connect>, name: Bytes)
    requires SameLive(a, r, conns) && Listed(a, name) == []
    ensures forall w :: w in Listed(r, name) ==> w.Connect !in conns
  {
    forall w | w in Listed(r, name) ensures w.Connect !in conns {
      LiveIn(Listed(r, name), w, conns);
      assert LiveOf(Listed(a, name), conns) == LiveOf(Listed(r, name), conns);
    }
  }

  lemma {:induction false} DelOneSub(ws: seq<SWorker>, id: Wid, w: SWorker)
    requires w in DelOne(ws, id)
    ensures w in ws
  {
    if ws != [] && ws[0].WorkerId != id && w != ws[0] {
      assert w in DelOne(ws[1..], id);
      DelOneSub(ws[1..], id, w);
    }
  }

  /** What evicting a worker that is gone does to the list it was chosen from, and to the live entries. */
  lemma EvictOne(r: Reg, best: SWorker, name: Bytes, conns: set<Connect>)
    requires name in r && best in r[name] && best.Connect !in conns
    ensures var r' := Clean(r, best.WorkerId, r.Keys);
            && |Listed(r', name)| < |Listed(r, name)|
            && (forall w :: w in Listed(r', name) ==> w in Listed(r, name))
            && (UniqueIds(r) ==> UniqueIds(r') && SameLive(r', r, conns))
  {
    assert Listed(r, name) == r[name];
    hide *;
    EvictShortens(r, best, name);
    if UniqueIds(r) { Evict(r, best, conns); }
  }

  lemma EvictShortens(r: Reg, best: SWorker, name: Bytes)
    requires name in r && best in r[name]
    ensures var r' := Clean(r, best.WorkerId, r.Keys);
            |Listed(r', name)| < |r[name]| && forall w :: w in Listed(r', name) ==> w in r[name]
  {
    var k :| 0 <= k < |r[name]| && r[name][k] == best;
    assert Has(r[name], best.WorkerId);
    CleanSub(r, best.WorkerId);
  }

  /** The first entry of that id in a list is a live one. */
  ghost predicate FirstIsLive(ws: seq<SWorker>, id: Wid, conns: set<Connect>)
  {
    exists k :: 0 <= k < |ws| && IsFirst(ws, id, k) && ws[k].Connect in conns
  }

  /** The first entry of that id stands at `k`. */
  ghost predicate IsFirst(ws: seq<SWorker>, id: Wid, k: nat)
    requires k < |ws|
  {
    ws[k].WorkerId == id && forall i :: 0 <= i < k ==> ws[i].WorkerId != id
  }

  /**
   Deletion by id keeps the live entries of a list, in order, if and only if the first entry of that id is
   not live.
   */
  lemma {:induction false} DelOneKeepsLiveIff(ws: seq<SWorker>, id: Wid, conns: set<Connect>)
    ensures LiveOf(DelOne(ws, id), conns) == LiveOf(ws, conns) <==> !FirstIsLive(ws, id, conns)
  {
    if ws != [] {
      var tail := ws[1..];
      FirstOrLater(ws, id, conns);
      hide *;
      if ws[0].WorkerId != id {
        DelOneKeepsLiveIff(tail, id, conns);
        FirstInTail(ws, id, conns);
        SameFront(if ws[0].Connect in conns then [ws[0]] else [], LiveOf(DelOne(tail, id), conns), LiveOf(tail, conns));
      }
    }
  }

  lemma FirstOrLater(ws: seq<SWorker>, id: Wid, conns: set<Connect>)
    requires ws != []
    ensures var x, tail := if ws[0].Connect in conns then [ws[0]] else [], ws[1..];
            if ws[0].WorkerId == id
            then LiveOf(DelOne(ws, id), conns) == LiveOf(ws, conns) <==> !FirstIsLive(ws, id, conns)
            else LiveOf(DelOne(ws, id), conns) == x + LiveOf(DelOne(tail, id), conns)
                 && LiveOf(ws, conns) == x + LiveOf(tail, conns)
  {
    var tail := ws[1..];
    if ws[0].WorkerId != id {
      assert ([ws[0]] + DelOne(tail, id))[1..] == DelOne(tail, id);
    } else if ws[0].Connect in conns {
      assert FirstIsLive(ws, id, conns);
      assert |LiveOf(ws, conns)| == |LiveOf(tail, conns)| + 1;
    }
  }

  lemma SameFront(x: seq<SWorker>, a: seq<SWorker>, b: seq<SWorker>)
    ensures x + a == x + b <==> a == b
  {
    if x + a == x + b { assert a == (x + a)[|x|..] == (x + b)[|x|..] == b; }
  }

  lemma FirstInTail(ws: seq<SWorker>, id: Wid, conns: set<Connect>)
    requires ws != [] && ws[0].WorkerId != id
    ensures FirstIsLive(ws, id, conns) <==> FirstIsLive(ws[1..], id, conns)
  {
    var tail := ws[1..];
    assert forall i :: 0 <= i < |tail| ==> tail[i] == ws[i + 1];
    if FirstIsLive(ws, id, conns) {
      var k :| 0 <= k < |ws| && IsFirst(ws, id, k) && ws[k].Connect in conns;
      assert tail[k - 1] == ws[k] && IsFirst(tail, id, k - 1);
    }
    if FirstIsLive(tail, id, conns) {
      var k :| 0 <= k < |tail| && IsFirst(tail, id, k) && tail[k].Connect in conns;
      assert ws[k + 1] == tail[k];
      forall i | 0 <= i < k + 1 ensures ws[i].WorkerId != id { if i > 0 { assert ws[i] == tail[i - 1]; } }
      assert IsFirst(ws, id, k + 1);
    }
  }

  /**
   Over the whole registry: an eviction by id removes no live entry if and only if in no function the first
   entry of that id is live.
   */
  lemma EvictKeepsLiveIff(r: Reg, id: Wid, conns: set<Connect>)
    ensures SameLive(Clean(r, id, r.Keys), r, conns) <==> forall n :: n in r ==> !FirstIsLive(r[n], id, conns)
  {
    var r' := Clean(r, id, r.Keys);
    forall n
      ensures LiveOf(Listed(r', n), conns) == LiveOf(Listed(r, n), conns) <==> !(n in r && FirstIsLive(r[n], id, conns))
    {
      if n in r {
        DelOneKeepsLiveIff(r[n], id, conns);
        if OnlyOne(r[n], id) { assert r[n][1..] == []; }
      }
    }
  }

  /** Two connections of one id, the first alive: evicting the second removes the first and leaves the dead one. */
  lemma SharedIdEvictsLive(name: Bytes, live: SWorker, gone: SWorker)
    requires live.WorkerId == gone.WorkerId && live.Connect != gone.Connect
    ensures var r := map[name := [live, gone]];
            var r', conns := Clean(r, gone.WorkerId, r.Keys), {live.Connect};
            r'[name] == [gone] && LiveOf(r[name], conns) == [live] && LiveOf(r'[name], conns) == []
            && !SameLive(r', r, conns)
  {
    var r := map[name := [live, gone]];
    var conns := {live.Connect};
    assert [live, gone][1..] == [gone] && [gone][1..] == [];
    assert LiveOf([gone], conns) == [];
    var r' := Clean(r, gone.WorkerId, r.Keys);
    assert LiveOf(Listed(r', name), conns) != LiveOf(Listed(r, name), conns);
  }

  /** When ids are unique, evicting a worker that is gone removes no live entry. */
  lemma Evict(r: Reg, best: SWorker, conns: set<Connect>)
    requires UniqueIds(r) && best.Connect !in conns && exists n :: n in r && best in r[n]
    ensures var r' := Clean(r, best.WorkerId, r.Keys); SameLive(r', r, conns) && UniqueIds(r')
  {
    var id := best.WorkerId;
    EvictKeepsLiveIff(r, id, conns);
    var m :| m in r && best in r[m];
    forall n | n in r ensures !FirstIsLive(r[n], id, conns) {
      forall i | 0 <= i < |r[n]| && r[n][i].WorkerId == id ensures r[n][i].Connect !in conns {
        assert r[n][i] in r[n] && r[n][i].Connect == best.Connect;
      }
    }
    CleanSub(r, id);
  }

  lemma CleanSub(r: Reg, id: Wid)
    ensures var r' := Clean(r, id, r.Keys);
            && (forall n, w :: n in r' && w in r'[n] ==> n in r && w in r[n])
            && (UniqueIds(r) ==> UniqueIds(r'))
  {
    var r' := Clean(r, id, r.Keys);
    forall n, w | n in r' && w in r'[n] ensures n in r && w in r[n] { DelOneSub(r[n], id, w); }
  }

  /** One entry of `id` leaves each list in `names`. */
  function Drop(r: Reg, id: Wid, names: set<Bytes>): Reg
  {
    map n | n in r :: if n in names then DelOne(r[n], id) else r[n]
  }

  lemma DropNone(r: Reg, id: Wid)
    ensures Drop(r, id, {}) == r
  {
  }

  lemma DropMore(r: Reg, id: Wid, names: set<Bytes>, n: Bytes)
    requires n in r && n !in names
    ensures var d := Drop(r, id, names);
            n in d && d[n := DelOne(d[n], id)] == Drop(r, id, names + {n})
  {
    hide DelOne;
  }

  lemma NotListed(ws: seq<SWorker>, id: Wid)
    requires forall i :: 0 <= i < |ws| ==> ws[i].WorkerId != id
    ensures !Has(ws, id) && DelOne(ws, id) == ws
  {
    DelOneAbsent(ws, id);
  }

  lemma CleanNothing(r: Reg, id: Wid, name: Bytes)
    requires !Has(Listed(r, name), id)
    ensures Clean(r, id, {name}) == r
  {
    if name in r { DelOneAbsent(r[name], id); }
    assert name in r ==> !OnlyOne(r[name], id);
  }

  /**
   Over the whole registry, as multisets: each function in `names` that lists `id` loses one worker of that
   id, nothing else changes.
   */
  lemma DeletionTakesOnePerFunction(r: Reg, id: Wid, names: set<Bytes>, n: Bytes)
    ensures var now, was := Listed(Clean(r, id, names), n), Listed(r, n);
            && Listed(Drop(r, id, names), n) == now
            && if n in names && Has(was, id)
               then exists w :: w in was && w.WorkerId == id && multiset(was) == multiset(now) + multiset{w}
               else now == was
  {
    var was := Listed(r, n);
    DelOneTakesOne(was, id);
    if OnlyOne(was, id) { assert DelOne(was, id) == []; }
  }

  lemma CleanNone(r: Reg, id: Wid)
    ensures Clean(r, id, {}) == r
  {
  }

  lemma CleanName(r: Reg, id: Wid, name: Bytes)
    requires name in r && Has(r[name], id)
    ensures var ws := DelOne(r[name], id);
            Clean(r, id, {name}) == if ws == [] then r - {name} else r[name := ws]
  {
    hide DelOne;
    var ws := DelOne(r[name], id);
    assert ws == [] <==> OnlyOne(r[name], id);
  }
}
