/** Counting a layer's routed copies: into the queues of the workers that own the experts, and by where they come from. */
module RouteCounts {
  import opened Prelude

  datatype RouteError = NoExperts(token: nat) | BadExpert(expert: int)

  /** A copy of a token for an expert, sent by the token's home. */
  datatype Copy = Copy(expert: int, home: nat)

  /** What the router returns for a token of some home. */
  datatype Routed = Routed(home: nat, ids: seq<int>)

  /** The selected experts; a negative id is no selection. */
  function Selected(ids: seq<int>): seq<int> {
    if |ids| == 0 then [] else Selected(ids[..|ids| - 1]) + if ids[|ids| - 1] >= 0 then [ids[|ids| - 1]] else []
  }

  ghost function CopiesOf(selected: seq<int>, home: nat): (r: seq<Copy>)
    ensures |r| == |selected| && forall k :: 0 <= k < |r| ==> r[k] == Copy(selected[k], home)
  {
    seq(|selected|, k requires 0 <= k < |selected| => Copy(selected[k], home))
  }

  /** Every copy routed, token after token. */
  ghost function Flat(routes: seq<Routed>): seq<Copy> {
    if |routes| == 0 then []
    else
      var last := routes[|routes| - 1];
      Flat(routes[..|routes| - 1]) + CopiesOf(Selected(last.ids), last.home)
  }

  /** Copies routed to an expert. */
  ghost function Copies(cs: seq<Copy>, e: int): nat {
    if |cs| == 0 then 0 else Copies(cs[..|cs| - 1], e) + if cs[|cs| - 1].expert == e then 1 else 0
  }

  /** A copy goes to the worker that owns its expert. */
  predicate GoesTo(c: Copy, perWorker: nat, w: nat)
    requires perWorker > 0
  {
    c.expert >= 0 && c.expert / perWorker == w
  }

  /** Copies a home sends to a worker. */
  ghost function Sent(cs: seq<Copy>, perWorker: nat, w: nat, home: nat): nat
    requires perWorker > 0
  {
    if |cs| == 0 then 0
    else
      var c := cs[|cs| - 1];
      Sent(cs[..|cs| - 1], perWorker, w, home) + if GoesTo(c, perWorker, w) && c.home == home then 1 else 0
  }

  /** Queue l of worker w holds the copies for expert w * perWorker + l. */
  ghost predicate Holding(queues: seq<seq<nat>>, workers: nat, perWorker: nat, cs: seq<Copy>) {
    && |queues| == workers && (forall w :: 0 <= w < workers ==> |queues[w]| == perWorker)
    && forall w, l :: 0 <= w < workers && 0 <= l < perWorker ==> queues[w][l] == Copies(cs, w * perWorker + l)
  }

  /** Each worker knows exactly the homes that send to it, and how many copies each of them sends. */
  ghost predicate Counting(sources: seq<map<nat, nat>>, workers: nat, perWorker: nat, cs: seq<Copy>)
    requires perWorker > 0
  {
    && |sources| == workers
    && forall w: nat, h: nat :: w < workers ==>
      && (h in sources[w] <==> Sent(cs, perWorker, w, h) > 0)
      && (h in sources[w] ==> sources[w][h] == Sent(cs, perWorker, w, h))
  }

  /** The only queue for an expert. */
  lemma {:induction false} Home(e: nat, workers: nat, perWorker: nat, w: nat, l: nat)
    requires perWorker > 0 && e < workers * perWorker && l < perWorker
    ensures e / perWorker < workers && e % perWorker < perWorker
    ensures w * perWorker + l == e <==> w == e / perWorker && l == e % perWorker
  {
    DivMod(e, perWorker);
    MulLess(workers, e / perWorker + 1, perWorker);
    if w * perWorker + l == e {
      PairUnique(w, l, e / perWorker, e % perWorker, perWorker);
    }
  }

  lemma CountOne(queues: seq<seq<nat>>, workers: nat, perWorker: nat, cs: seq<Copy>, c: Copy)
    requires Holding(queues, workers, perWorker, cs) && perWorker > 0 && 0 <= c.expert < workers * perWorker
    ensures var w, l := c.expert / perWorker, c.expert % perWorker;
      && w < workers && l < perWorker
      && Holding(queues[w := queues[w][l := queues[w][l] + 1]], workers, perWorker, cs + [c])
  {
    var e: nat := c.expert;
    Home(e, workers, perWorker, 0, 0);
    var w0, l0 := e / perWorker, e % perWorker;
    var queues' := queues[w0 := queues[w0][l0 := queues[w0][l0] + 1]];
    assert (cs + [c])[..|cs|] == cs;
    forall w, l | 0 <= w < workers && 0 <= l < perWorker
      ensures queues'[w][l] == Copies(cs + [c], w * perWorker + l)
    {
      Home(e, workers, perWorker, w, l);
    }
  }

  lemma CountSource(sources: seq<map<nat, nat>>, workers: nat, perWorker: nat, cs: seq<Copy>, c: Copy)
    requires perWorker > 0 && Counting(sources, workers, perWorker, cs) && c.expert >= 0 && c.expert / perWorker < workers
    ensures var w := c.expert / perWorker;
      Counting(sources[w := OneMoreFrom(sources[w], c.home)], workers, perWorker, cs + [c])
  {
    assert (cs + [c])[..|cs|] == cs;
  }

  function OneMoreFrom(counts: map<nat, nat>, home: nat): map<nat, nat> {
    counts[home := if home in counts then counts[home] + 1 else 1]
  }

  method SelectExperts(ids: seq<int>) returns (selected: seq<int>)
    ensures selected == Selected(ids) && forall k :: 0 <= k < |selected| ==> selected[k] >= 0
  {
    selected := [];
    for i := 0 to |ids|
      invariant selected == Selected(ids[..i]) && forall k :: 0 <= k < |selected| ==> selected[k] >= 0
    {
      assert ids[..i + 1][..i] == ids[..i];
      if ids[i] >= 0 {
        selected := selected + [ids[i]];
      }
    }
    assert ids[..|ids|] == ids;
  }

  /** A token is routed to some expert, and to none out of range. */
  ghost predicate RouteOk(ids: seq<int>, total: nat) {
    Selected(ids) != [] && forall k :: 0 <= k < |Selected(ids)| ==> Selected(ids)[k] < total
  }

  /** Count the copies of one token. */
  method CountToken(queues: seq<seq<nat>>, sources: seq<map<nat, nat>>, selected: seq<int>, home: nat, workers: nat,
                    perWorker: nat, ghost before: seq<Copy>)
    returns (error: Option<RouteError>, queues': seq<seq<nat>>, sources': seq<map<nat, nat>>)
    requires perWorker > 0 && Holding(queues, workers, perWorker, before)
    requires Counting(sources, workers, perWorker, before)
    requires forall k :: 0 <= k < |selected| ==> selected[k] >= 0
    ensures error.None? <==> forall k :: 0 <= k < |selected| ==> selected[k] < workers * perWorker
    ensures error.Some? ==>
      && error.value.BadExpert?
      && exists i :: 0 <= i < |selected| && selected[i] == error.value.expert >= workers * perWorker
                     && forall k :: 0 <= k < i ==> selected[k] < workers * perWorker
    ensures error.None? ==> Holding(queues', workers, perWorker, before + CopiesOf(selected, home))
    ensures error.None? ==> Counting(sources', workers, perWorker, before + CopiesOf(selected, home))
  {
    hide Holding, Counting;
    queues', sources' := queues, sources;
    ghost var all := CopiesOf(selected, home);
    assert before + all[..0] == before;
    for i := 0 to |selected|
      invariant Holding(queues', workers, perWorker, before + all[..i])
      invariant Counting(sources', workers, perWorker, before + all[..i])
      invariant forall k :: 0 <= k < i ==> selected[k] < workers * perWorker
    {
      var e := selected[i];
      if e >= workers * perWorker {
        return Some(BadExpert(e)), queues', sources';
      }
      assert before + all[..i] + [all[i]] == before + all[..i + 1];
      queues', sources' := CountCopy(queues', sources', Copy(e, home), workers, perWorker, before + all[..i]);
    }
    assert all[..|selected|] == all;
    error := None;
  }

  method CountCopy(queues: seq<seq<nat>>, sources: seq<map<nat, nat>>, c: Copy, workers: nat, perWorker: nat,
                   ghost before: seq<Copy>)
    returns (queues': seq<seq<nat>>, sources': seq<map<nat, nat>>)
    requires perWorker > 0 && Holding(queues, workers, perWorker, before) && Counting(sources, workers, perWorker, before)
    requires 0 <= c.expert < workers * perWorker
    ensures Holding(queues', workers, perWorker, before + [c]) && Counting(sources', workers, perWorker, before + [c])
  {
    CountOne(queues, workers, perWorker, before, c);
    CountSource(sources, workers, perWorker, before, c);
    hide Copies, Sent;
    var w, l := c.expert / perWorker, c.expert % perWorker;
    queues' := queues[w := queues[w][l := queues[w][l] + 1]];
    sources' := sources[w := OneMoreFrom(sources[w], c.home)];
  }

  /**
   * Count every selected copy on the one queue that owns its expert, and beside the home it comes from; fanouts are the
   * copies of each token.
   */
  method RouteLayer(routes: seq<Routed>, workers: nat, perWorker: nat)
    returns (error: Option<RouteError>, queues: seq<seq<nat>>, sources: seq<map<nat, nat>>, fanouts: seq<nat>)
    requires perWorker > 0
    ensures error.None? <==> forall t :: 0 <= t < |routes| ==> Routable(routes[t].ids, workers * perWorker)
    ensures error.Some? ==> exists t :: 0 <= t < |routes| && StopsAt(routes, workers * perWorker, error.value, t)
    ensures error.None? ==> Holding(queues, workers, perWorker, Flat(routes))
    ensures error.None? ==> Counting(sources, workers, perWorker, Flat(routes))
    ensures error.None? ==> CountsGiven(queues, sources, workers, perWorker, routes)
    ensures error.None? ==>
      |fanouts| == |routes| && forall t :: 0 <= t < |routes| ==> fanouts[t] == Selections(routes[t].ids) > 0
  {
    queues, sources, fanouts := seq(workers, _ => seq(perWorker, _ => 0)), seq(workers, _ => map[]), [];
    assert routes[..0] == [];
    assert Counted(queues, sources, workers, perWorker, routes[..0]);
    hide Counted, Holding, Counting, Flat, Selected, Selections, RouteOk, Routable, CountsGiven, StopsAt;
    for t := 0 to |routes|
      invariant Counted(queues, sources, workers, perWorker, routes[..t]) && |fanouts| == t
      invariant forall k :: 0 <= k < t ==>
        Routable(routes[k].ids, workers * perWorker) && fanouts[k] == Selections(routes[k].ids) > 0
    {
      var fanout;
      error, queues, sources, fanout := RouteToken(routes, t, queues, sources, workers, perWorker);
      if error.Some? {
        return;
      }
      fanouts := fanouts + [fanout];
    }
    assert routes[..|routes|] == routes;
    CountedIs(queues, sources, workers, perWorker, routes);
    error := None;
  }

  ghost predicate Counted(queues: seq<seq<nat>>, sources: seq<map<nat, nat>>, workers: nat, perWorker: nat,
                          routes: seq<Routed>)
    requires perWorker > 0
  {
    Holding(queues, workers, perWorker, Flat(routes)) && Counting(sources, workers, perWorker, Flat(routes))
  }

  lemma CountedIs(queues: seq<seq<nat>>, sources: seq<map<nat, nat>>, workers: nat, perWorker: nat, routes: seq<Routed>)
    requires perWorker > 0 && Counted(queues, sources, workers, perWorker, routes)
    ensures Holding(queues, workers, perWorker, Flat(routes)) && Counting(sources, workers, perWorker, Flat(routes))
    ensures CountsGiven(queues, sources, workers, perWorker, routes)
  {
    hide Holding, Counting, CountsGiven;
    CountsAreGiven(queues, sources, workers, perWorker, routes);
  }

  /** Select the experts of one token and count its copies. */
  method RouteToken(routes: seq<Routed>, t: nat, queues: seq<seq<nat>>, sources: seq<map<nat, nat>>, workers: nat,
                    perWorker: nat)
    returns (error: Option<RouteError>, queues': seq<seq<nat>>, sources': seq<map<nat, nat>>, fanout: nat)
    requires perWorker > 0 && t < |routes| && Counted(queues, sources, workers, perWorker, routes[..t])
    requires forall k :: 0 <= k < t ==> Routable(routes[k].ids, workers * perWorker)
    ensures error.None? <==> Routable(routes[t].ids, workers * perWorker)
    ensures error.Some? ==> StopsAt(routes, workers * perWorker, error.value, t)
    ensures error.None? ==> Counted(queues', sources', workers, perWorker, routes[..t + 1])
    ensures error.None? ==> fanout == Selections(routes[t].ids) > 0
  {
    hide Holding, Counting, Flat, Selected, Selections, Routable, FirstBad;
    var ids := routes[t].ids;
    var selected := SelectExperts(ids);
    SelectedAre(ids, 0, 0);
    queues', sources', fanout := queues, sources, |selected|;
    if |selected| == 0 {
      NoneSelected(ids);
      NotRoutable(ids, workers * perWorker, 0);
      return Some(NoExperts(t)), queues', sources', fanout;
    }
    NextToken(routes, t);
    error, queues', sources' :=
      CountToken(queues, sources, selected, routes[t].home, workers, perWorker, Flat(routes[..t]));
    if error.Some? {
      StopsAtToken(routes, workers * perWorker, error.value.expert, t);
    } else {
      SelectedInRange(ids, workers * perWorker);
    }
  }

  lemma {:induction false} NotRoutable(ids: seq<int>, total: nat, i: nat)
    requires (forall k :: 0 <= k < |ids| ==> ids[k] < 0) || (i < |ids| && ids[i] >= total)
    ensures !Routable(ids, total)
  {
  }

  lemma {:induction false} StopsAtToken(routes: seq<Routed>, total: nat, e: int, t: nat)
    requires t < |routes| && forall k :: 0 <= k < t ==> Routable(routes[k].ids, total)
    requires var selected := Selected(routes[t].ids);
      exists i :: 0 <= i < |selected| && selected[i] == e >= total && forall k :: 0 <= k < i ==> selected[k] < total
    ensures StopsAt(routes, total, BadExpert(e), t) && !Routable(routes[t].ids, total)
  {
    var ids := routes[t].ids;
    hide Selected;
    var i :| 0 <= i < |Selected(ids)| && Selected(ids)[i] == e >= total
             && forall k :: 0 <= k < i ==> Selected(ids)[k] < total;
    var j := FirstOutOfRange(ids, total, i);
    assert FirstBad(ids, total, e);
    NotRoutable(ids, total, j);
  }

  lemma {:induction false} SelectedInRange(ids: seq<int>, total: nat)
    requires Selected(ids) != [] && forall k :: 0 <= k < |Selected(ids)| ==> Selected(ids)[k] < total
    ensures Routable(ids, total)
  {
    RouteOkIff(ids, total);
  }

  lemma NextToken(routes: seq<Routed>, t: nat)
    requires t < |routes|
    ensures Flat(routes[..t + 1]) == Flat(routes[..t]) + CopiesOf(Selected(routes[t].ids), routes[t].home)
  {
    assert routes[..t + 1][..t] == routes[..t];
  }

  // --------------------------------------------------------- counts on the ids

  /** The ids from lo on and below hi. */
  ghost function Within(ids: seq<int>, lo: int, hi: int): nat {
    if |ids| == 0 then 0 else Within(ids[..|ids| - 1], lo, hi) + if lo <= ids[|ids| - 1] < hi then 1 else 0
  }

  /** The ids from lo on and below hi that the tokens were given; of one home, if there is a home. */
  ghost function Given(routes: seq<Routed>, lo: int, hi: int, home: Option<nat>): nat {
    if |routes| == 0 then 0
    else
      var last := routes[|routes| - 1];
      Given(routes[..|routes| - 1], lo, hi, home)
      + if home == None || home == Some(last.home) then Within(last.ids, lo, hi) else 0
  }

  /** The ids that are a selection. */
  ghost function Selections(ids: seq<int>): nat {
    if |ids| == 0 then 0 else Selections(ids[..|ids| - 1]) + if ids[|ids| - 1] < 0 then 0 else 1
  }

  lemma WithinAppend(ids: seq<int>, id: int, lo: int, hi: int)
    ensures Within(ids + [id], lo, hi) == Within(ids, lo, hi) + if lo <= id < hi then 1 else 0
  {
    assert (ids + [id])[..|ids|] == ids;
  }

  /** The experts selected are the ids that are not negative, each as often as it was given. */
  lemma {:induction false} SelectedAre(ids: seq<int>, lo: int, hi: int)
    requires lo >= 0
    ensures |Selected(ids)| == Selections(ids)
    ensures Within(Selected(ids), lo, hi) == Within(ids, lo, hi)
  {
    if |ids| > 0 {
      var n := |ids| - 1;
      SelectedAre(ids[..n], lo, hi);
      if ids[n] >= 0 {
        WithinAppend(Selected(ids[..n]), ids[n], lo, hi);
      } else {
        assert Selected(ids) == Selected(ids[..n]);
      }
    }
  }

  /** An id is selected exactly when it was given and is not negative. */
  lemma {:induction false} SelectedIff(ids: seq<int>, e: int)
    ensures e in Selected(ids) <==> e >= 0 && e in ids
  {
    if |ids| > 0 {
      var n := |ids| - 1;
      SelectedIff(ids[..n], e);
      assert ids == ids[..n] + [ids[n]];
    }
  }

  lemma {:induction false} CopiesGiven(cs: seq<Copy>, selected: seq<int>, home: nat, e: int)
    ensures Copies(cs + CopiesOf(selected, home), e) == Copies(cs, e) + Within(selected, e, e + 1)
  {
    if |selected| == 0 {
      assert cs + CopiesOf(selected, home) == cs;
    } else {
      var n := |selected| - 1;
      CopiesGiven(cs, selected[..n], home, e);
      var all := cs + CopiesOf(selected, home);
      assert all[..|all| - 1] == cs + CopiesOf(selected[..n], home);
    }
  }

  lemma {:induction false} SentGiven(cs: seq<Copy>, selected: seq<int>, from: nat, perWorker: nat, w: nat, home: nat)
    requires perWorker > 0
    ensures Sent(cs + CopiesOf(selected, from), perWorker, w, home)
         == Sent(cs, perWorker, w, home)
            + if from == home then Within(selected, w * perWorker, w * perWorker + perWorker) else 0
  {
    if |selected| == 0 {
      assert cs + CopiesOf(selected, from) == cs;
    } else {
      var n := |selected| - 1;
      SentGiven(cs, selected[..n], from, perWorker, w, home);
      var all := cs + CopiesOf(selected, from);
      assert all[..|all| - 1] == cs + CopiesOf(selected[..n], from);
      OwnerRange(Copy(selected[n], from), perWorker, w);
      hide GoesTo;
    }
  }

  /** A worker owns a contiguous range of experts. */
  lemma OwnerRange(c: Copy, perWorker: nat, w: nat)
    requires perWorker > 0
    ensures GoesTo(c, perWorker, w) <==> w * perWorker <= c.expert < w * perWorker + perWorker
  {
    if c.expert >= 0 {
      DivMod(c.expert, perWorker);
      if w * perWorker <= c.expert < w * perWorker + perWorker {
        PairUnique(w, c.expert - w * perWorker, c.expert / perWorker, c.expert % perWorker, perWorker);
      }
    } else {
      MulNonNegative(w, perWorker);
    }
  }

  lemma MulNonNegative(a: nat, b: nat)
    ensures a * b >= 0
  {
  }

  /** The copies of an expert are the times its id was given. */
  lemma {:induction false} CopiesAreGiven(routes: seq<Routed>, e: nat)
    ensures Copies(Flat(routes), e) == Given(routes, e, e + 1, None)
  {
    if |routes| > 0 {
      var last := routes[|routes| - 1];
      CopiesAreGiven(routes[..|routes| - 1], e);
      CopiesGiven(Flat(routes[..|routes| - 1]), Selected(last.ids), last.home, e);
      SelectedAre(last.ids, e, e + 1);
    }
  }

  /** What a home sends to a worker are the ids of the worker's experts given to tokens of that home. */
  lemma {:induction false} SentIsGiven(routes: seq<Routed>, perWorker: nat, w: nat, home: nat)
    requires perWorker > 0
    ensures Sent(Flat(routes), perWorker, w, home)
         == Given(routes, w * perWorker, w * perWorker + perWorker, Some(home))
  {
    if |routes| > 0 {
      hide Selected, Sent, Within, CopiesOf;
      var last := routes[|routes| - 1];
      SentIsGiven(routes[..|routes| - 1], perWorker, w, home);
      SentGiven(Flat(routes[..|routes| - 1]), Selected(last.ids), last.home, perWorker, w, home);
      MulNonNegative(w, perWorker);
      SelectedAre(last.ids, w * perWorker, w * perWorker + perWorker);
    }
  }

  /** The counts, on the ids given: every queue, and what every worker has from every home. */
  ghost predicate CountsGiven(queues: seq<seq<nat>>, sources: seq<map<nat, nat>>, workers: nat, perWorker: nat,
                              routes: seq<Routed>) {
    && |queues| == |sources| == workers
    && (forall w, l :: 0 <= w < workers && 0 <= l < |queues[w]| ==>
          var e := w * perWorker + l; queues[w][l] == Given(routes, e, e + 1, None))
    && (forall w: nat, h: nat :: w < workers && h in sources[w] ==>
          sources[w][h] == Given(routes, w * perWorker, w * perWorker + perWorker, Some(h)) > 0)
    && forall w: nat, h: nat :: w < workers && h !in sources[w] ==>
         Given(routes, w * perWorker, w * perWorker + perWorker, Some(h)) == 0
  }

  lemma {:induction false} CountsAreGiven(queues: seq<seq<nat>>, sources: seq<map<nat, nat>>, workers: nat, perWorker: nat,
                       routes: seq<Routed>)
    requires perWorker > 0 && Holding(queues, workers, perWorker, Flat(routes))
    requires Counting(sources, workers, perWorker, Flat(routes))
    ensures CountsGiven(queues, sources, workers, perWorker, routes)
  {
    hide Flat, Copies, Sent, Given;
    forall w: nat, l: nat | w < workers && l < perWorker
      ensures queues[w][l] == Given(routes, w * perWorker + l, w * perWorker + l + 1, None)
    {
      MulNonNegative(w, perWorker);
      CopiesAreGiven(routes, w * perWorker + l);
    }
    forall w: nat, h: nat | w < workers
      ensures Sent(Flat(routes), perWorker, w, h) == Given(routes, w * perWorker, w * perWorker + perWorker, Some(h))
    {
      SentIsGiven(routes, perWorker, w, h);
    }
  }

  /** The ids a token may be given: some id is a selection, and every id is below the number of experts. */
  ghost predicate Routable(ids: seq<int>, total: nat) {
    (exists i :: 0 <= i < |ids| && ids[i] >= 0) && forall i :: 0 <= i < |ids| ==> ids[i] < total
  }

  lemma {:induction false} RouteOkIff(ids: seq<int>, total: nat)
    ensures RouteOk(ids, total) <==> Routable(ids, total)
  {
    hide Selected;
    forall e: int
      ensures e in Selected(ids) <==> e >= 0 && e in ids
    {
      SelectedIff(ids, e);
    }
    if RouteOk(ids, total) {
      assert Selected(ids)[0] in ids;
      forall i | 0 <= i < |ids|
        ensures ids[i] < total
      {
        assert ids[i] >= 0 ==> ids[i] in Selected(ids);
      }
    }
    if Routable(ids, total) {
      var i :| 0 <= i < |ids| && ids[i] >= 0;
      assert ids[i] in Selected(ids);
      forall k | 0 <= k < |Selected(ids)|
        ensures Selected(ids)[k] < total
      {
        assert Selected(ids)[k] in ids;
      }
    }
  }

  /** The first id out of range, of those selected, is the first out of range given. */
  lemma {:induction false} FirstOutOfRange(ids: seq<int>, total: nat, i: nat) returns (j: nat)
    requires i < |Selected(ids)| && Selected(ids)[i] >= total
    requires forall k :: 0 <= k < i ==> Selected(ids)[k] < total
    ensures j < |ids| && ids[j] == Selected(ids)[i] && forall k :: 0 <= k < j ==> ids[k] < total
  {
    var n := |ids| - 1;
    var before := Selected(ids[..n]);
    assert forall m :: 0 <= m < |before| ==> Selected(ids)[m] == before[m];
    if i < |before| {
      assert forall k :: 0 <= k <= i ==> Selected(ids)[k] == before[k];
      j := FirstOutOfRange(ids[..n], total, i);
    } else {
      j := n;
      forall k | 0 <= k < n
        ensures ids[k] < total
      {
        SelectedIff(ids[..n], ids[k]);
        assert ids[..n][k] == ids[k];
        if ids[k] >= 0 {
          var m :| 0 <= m < |before| && before[m] == ids[k];
          assert Selected(ids)[m] == before[m];
        }
      }
    }
  }

  /** Counting stops at the first token with no selection or an id out of range, at the first such id. */
  ghost predicate StopsAt(routes: seq<Routed>, total: nat, error: RouteError, t: nat)
    requires t < |routes|
  {
    && (forall k :: 0 <= k < t ==> Routable(routes[k].ids, total))
    && match error
       case NoExperts(token) => token == t && forall i :: 0 <= i < |routes[t].ids| ==> routes[t].ids[i] < 0
       case BadExpert(e) => e >= total && FirstBad(routes[t].ids, total, e)
  }

  ghost predicate FirstBad(ids: seq<int>, total: nat, e: int) {
    exists i :: 0 <= i < |ids| && ids[i] == e && forall k :: 0 <= k < i ==> ids[k] < total
  }

  lemma {:induction false} NoneSelected(ids: seq<int>)
    requires Selected(ids) == []
    ensures forall i :: 0 <= i < |ids| ==> ids[i] < 0
  {
    forall i | 0 <= i < |ids|
      ensures ids[i] < 0
    {
      SelectedIff(ids, ids[i]);
    }
  }

  // ------------------------------------------------------------ conservation

  ghost function CopiesBelow(cs: seq<Copy>, n: nat): nat {
    if n == 0 then 0 else CopiesBelow(cs, n - 1) + Copies(cs, n - 1)
  }

  /** No copy is lost: the copies of all experts together are the copies routed. */
  lemma {:induction false} NoCopyLost(cs: seq<Copy>, n: nat)
    requires forall k :: 0 <= k < |cs| ==> 0 <= cs[k].expert < n
    ensures CopiesBelow(cs, n) == |cs|
  {
    if |cs| == 0 {
      NoCopies(n);
    } else {
      var m := |cs| - 1;
      NoCopyLost(cs[..m], n);
      OneMore(cs, n);
    }
  }

  lemma {:induction false} NoCopies(n: nat)
    ensures CopiesBelow([], n) == 0
  {
    if n > 0 {
      NoCopies(n - 1);
    }
  }

  lemma {:induction false} OneMore(cs: seq<Copy>, n: nat)
    requires |cs| > 0
    ensures CopiesBelow(cs, n) == CopiesBelow(cs[..|cs| - 1], n) + if 0 <= cs[|cs| - 1].expert < n then 1 else 0
  {
    if n > 0 {
      OneMore(cs, n - 1);
    }
  }

  /** What the first k queues of a worker hold. */
  ghost function Queued(cs: seq<Copy>, perWorker: nat, w: nat, k: nat): nat {
    if k == 0 then 0 else Queued(cs, perWorker, w, k - 1) + Copies(cs, w * perWorker + (k - 1))
  }

  /** What the first n homes send to a worker. */
  ghost function SentBelow(cs: seq<Copy>, perWorker: nat, w: nat, n: nat): nat
    requires perWorker > 0
  {
    if n == 0 then 0 else SentBelow(cs, perWorker, w, n - 1) + Sent(cs, perWorker, w, n - 1)
  }

  /** What the homes send to a worker is what its queues hold. */
  lemma {:induction false} SourcesAreQueued(cs: seq<Copy>, perWorker: nat, w: nat, homes: nat)
    requires perWorker > 0 && forall k :: 0 <= k < |cs| ==> cs[k].expert >= 0 && cs[k].home < homes
    ensures SentBelow(cs, perWorker, w, homes) == Queued(cs, perWorker, w, perWorker)
  {
    if |cs| == 0 {
      NothingSent(perWorker, w, homes);
      NothingQueued(perWorker, w, perWorker);
    } else {
      SourcesAreQueued(cs[..|cs| - 1], perWorker, w, homes);
      OneMoreSent(cs, perWorker, w, homes);
      OneMoreQueued(cs, perWorker, w, perWorker);
      var e: nat := cs[|cs| - 1].expert;
      DivMod(e, perWorker);
    }
  }

  lemma {:induction false} NothingSent(perWorker: nat, w: nat, n: nat)
    requires perWorker > 0
    ensures SentBelow([], perWorker, w, n) == 0
  {
    if n > 0 {
      NothingSent(perWorker, w, n - 1);
    }
  }

  lemma {:induction false} NothingQueued(perWorker: nat, w: nat, k: nat)
    ensures Queued([], perWorker, w, k) == 0
  {
    if k > 0 {
      NothingQueued(perWorker, w, k - 1);
    }
  }

  lemma {:induction false} OneMoreSent(cs: seq<Copy>, perWorker: nat, w: nat, n: nat)
    requires perWorker > 0 && |cs| > 0
    ensures var c := cs[|cs| - 1];
      SentBelow(cs, perWorker, w, n)
      == SentBelow(cs[..|cs| - 1], perWorker, w, n) + if GoesTo(c, perWorker, w) && c.home < n then 1 else 0
  {
    if n > 0 {
      OneMoreSent(cs, perWorker, w, n - 1);
    }
  }

  lemma {:induction false} OneMoreQueued(cs: seq<Copy>, perWorker: nat, w: nat, k: nat)
    requires k <= perWorker && perWorker > 0 && |cs| > 0 && cs[|cs| - 1].expert >= 0
    ensures var e := cs[|cs| - 1].expert;
      Queued(cs, perWorker, w, k)
      == Queued(cs[..|cs| - 1], perWorker, w, k) + if e / perWorker == w && e % perWorker < k then 1 else 0
  {
    if k > 0 {
      OneMoreQueued(cs, perWorker, w, k - 1);
      var e: nat := cs[|cs| - 1].expert;
      DivMod(e, perWorker);
      if e == w * perWorker + (k - 1) {
        PairUnique(w, k - 1, e / perWorker, e % perWorker, perWorker);
      }
      hide Queued;
    }
  }

  ghost function Sum(xs: seq<nat>): nat {
    NatSum<nat>(xs, x => x)
  }

  /** The sum of all fanouts is the number of copies routed. */
  lemma {:induction false} FanoutsAreCopies(routes: seq<Routed>, fanouts: seq<nat>)
    requires |fanouts| == |routes| && forall t :: 0 <= t < |routes| ==> fanouts[t] == |Selected(routes[t].ids)|
    ensures Sum(fanouts) == |Flat(routes)|
  {
    if |routes| > 0 {
      var n := |routes| - 1;
      FanoutsAreCopies(routes[..n], fanouts[..n]);
      assert fanouts == fanouts[..n] + [fanouts[n]];
      NatSumAppend<nat>(fanouts[..n], fanouts[n], x => x);
    }
  }
}
