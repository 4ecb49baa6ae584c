/**
 * What a merge keeps: every token with its row and metadata, the order by expert exactly when the inputs allow it,
 * and the prefill-first layout of attention batches.
 */
module BatchMerge {
  import opened Prelude
  import opened CountingSort
  import opened Batches

  // ------------------------------------------------------- merging experts

  /** The tokens of merged expert batches, in order. */
  ghost function MergedTokens(bs: seq<TokenBatch>): seq<RoutedToken>
    requires |bs| > 0 && forall i :: 0 <= i < |bs| ==> RoutedBatch(bs[i])
  {
    if |bs| == 1 then RoutedTokens(bs[0]) else StableSort(AllRoutedTokens(bs), AllExpIds(bs), MAX_EXPERTS)
  }

  ghost predicate SortedByExpert(ts: seq<RoutedToken>) {
    forall i, j :: 0 <= i < j < |ts| ==> ts[i].exp <= ts[j].exp
  }

  lemma {:induction false} KeysAreExperts(bs: seq<TokenBatch>)
    requires forall i :: 0 <= i < |bs| ==> RoutedBatch(bs[i])
    ensures forall k :: 0 <= k < |AllRoutedTokens(bs)| ==>
      AllExpIds(bs)[k] == AllRoutedTokens(bs)[k].exp < MAX_EXPERTS
  {
    TokensAreColumns(bs);
  }

  lemma {:induction false} WithKeyExperts(ts: seq<RoutedToken>, keys: seq<nat>, e: nat)
    requires |ts| == |keys| && forall k :: 0 <= k < |ts| ==> keys[k] == ts[k].exp
    ensures forall k :: 0 <= k < |WithKey(ts, keys, e)| ==> WithKey(ts, keys, e)[k].exp == e
  {
    if |ts| > 0 {
      WithKeyExperts(ts[..|ts| - 1], keys[..|ts| - 1], e);
    }
  }

  lemma {:induction false} StableSortByExpert(ts: seq<RoutedToken>, keys: seq<nat>, m: nat)
    requires |ts| == |keys| && forall k :: 0 <= k < |ts| ==> keys[k] == ts[k].exp
    ensures SortedByExpert(StableSort(ts, keys, m))
    ensures forall k :: 0 <= k < |StableSort(ts, keys, m)| ==> StableSort(ts, keys, m)[k].exp < m
  {
    if m > 0 {
      StableSortByExpert(ts, keys, m - 1);
      WithKeyExperts(ts, keys, m - 1);
    }
  }

  /** A merge is sorted by expert exactly when it merges two batches or more, or its one batch already was. */
  lemma {:induction false} MergedSortedIff(bs: seq<TokenBatch>)
    requires |bs| > 0 && forall i :: 0 <= i < |bs| ==> RoutedBatch(bs[i])
    ensures SortedByExpert(MergedTokens(bs)) <==> |bs| >= 2 || SortedByExpert(RoutedTokens(bs[0]))
  {
    KeysAreExperts(bs);
    StableSortByExpert(AllRoutedTokens(bs), AllExpIds(bs), MAX_EXPERTS);
  }

  /** One batch holding expert 1 before expert 0 comes back unsorted. */
  lemma {:induction false} SingleUnsortedBatch() returns (b: TokenBatch)
    ensures RoutedBatch(b) && b.meta.tag == Expert && !SortedByExpert(MergedTokens([b]))
  {
    b := TokenBatch([Row(0), Row(1)], Meta(Expert, 0, 2, [7, 8], [1, 0], [], [0, 0], [-1, -1], None, None, None));
    var ts := MergedTokens([b]);
    assert ts[0].exp == 1 && ts[1].exp == 0;
  }

  /** A merge neither loses, invents nor alters a token: every row keeps its request, expert, rank and weight. */
  lemma {:induction false} MergeConserves(bs: seq<TokenBatch>, t: RoutedToken)
    requires |bs| > 0 && forall i :: 0 <= i < |bs| ==> RoutedBatch(bs[i])
    ensures Count(MergedTokens(bs), t) == Count(AllRoutedTokens(bs), t)
  {
    if |bs| == 1 {
      assert AllRoutedTokens(bs[..0]) == [];
      assert AllRoutedTokens(bs) == RoutedTokens(bs[0]);
    } else {
      KeysAreExperts(bs);
      StableSortCount(AllRoutedTokens(bs), AllExpIds(bs), MAX_EXPERTS, t);
    }
  }

  lemma {:induction false} AllTokensConcat(bs: seq<TokenBatch>, cs: seq<TokenBatch>)
    requires forall i :: 0 <= i < |bs| ==> RoutedBatch(bs[i])
    requires forall i :: 0 <= i < |cs| ==> RoutedBatch(cs[i])
    ensures AllRoutedTokens(bs + cs) == AllRoutedTokens(bs) + AllRoutedTokens(cs)
  {
    hide RoutedTokens, RoutedBatch;
    if |cs| == 0 {
      assert bs + cs == bs;
    } else {
      var n := |cs| - 1;
      assert (bs + cs)[..|bs + cs| - 1] == bs + cs[..n];
      AllTokensConcat(bs, cs[..n]);
      assert (bs + cs)[|bs + cs| - 1] == cs[n];
      assert AllRoutedTokens(bs) + AllRoutedTokens(cs[..n]) + RoutedTokens(cs[n])
          == AllRoutedTokens(bs) + AllRoutedTokens(cs);
    }
  }

  // ---------------------------------------------------- merging attention

  ghost function AllAttnTokens(bs: seq<TokenBatch>): seq<AttnToken>
    requires forall i :: 0 <= i < |bs| ==> AttnBatch(bs[i])
  {
    if |bs| == 0 then [] else AllAttnTokens(bs[..|bs| - 1]) + AttnTokens(bs[|bs| - 1])
  }

  /** Pulling the prefill parts to the front loses and invents no token. */
  lemma {:induction false} AttentionMergeConserves(bs: seq<TokenBatch>, t: AttnToken)
    requires forall i :: 0 <= i < |bs| ==> AttnBatch(bs[i])
    ensures Count(AllPrefill(bs) + AllDecode(bs), t) == Count(AllAttnTokens(bs), t)
  {
    hide Count, AttnTokens;
    CountConcat(AllPrefill(bs), AllDecode(bs), t);
    if |bs| == 0 {
      NoTokens(t);
    } else {
      var n := |bs| - 1;
      var b := bs[n];
      AttentionMergeConserves(bs[..n], t);
      CountConcat(AllPrefill(bs[..n]), AllDecode(bs[..n]), t);
      CountConcat(AllPrefill(bs[..n]), PrefillTokens(b), t);
      CountConcat(AllDecode(bs[..n]), DecodeTokens(b), t);
      CountConcat(AllAttnTokens(bs[..n]), AttnTokens(b), t);
      CountConcat(PrefillTokens(b), DecodeTokens(b), t);
      assert AttnTokens(b) == PrefillTokens(b) + DecodeTokens(b);
    }
  }

  lemma NoTokens(t: AttnToken)
    ensures Count<AttnToken>([], t) == 0
  {
  }

  /** The prefill tokens, which are those with a length other than -1, come first. */
  ghost predicate PrefillFirst(b: TokenBatch)
    requires AttnBatch(b)
  {
    && (forall k :: 0 <= k < |PrefillTokens(b)| ==> PrefillTokens(b)[k].prefill != -1)
    && (forall k :: 0 <= k < |DecodeTokens(b)| ==> DecodeTokens(b)[k].prefill == -1)
  }

  ghost predicate Layout(front: seq<AttnToken>, back: seq<AttnToken>) {
    && (forall k :: 0 <= k < |front| ==> front[k].prefill != -1)
    && (forall k :: 0 <= k < |back| ==> back[k].prefill == -1)
  }

  lemma LayoutConcat(front: seq<AttnToken>, back: seq<AttnToken>, front': seq<AttnToken>, back': seq<AttnToken>)
    ensures Layout(front + front', back + back') <==> Layout(front, back) && Layout(front', back')
  {
    if Layout(front + front', back + back') {
      assert forall k :: 0 <= k < |front| ==> front[k] == (front + front')[k];
      assert forall k :: 0 <= k < |front'| ==> front'[k] == (front + front')[|front| + k];
      assert forall k :: 0 <= k < |back| ==> back[k] == (back + back')[k];
      assert forall k :: 0 <= k < |back'| ==> back'[k] == (back + back')[|back| + k];
    }
  }

  lemma {:induction false} AllPartsLayout(bs: seq<TokenBatch>)
    requires forall i :: 0 <= i < |bs| ==> AttnBatch(bs[i])
    ensures Layout(AllPrefill(bs), AllDecode(bs)) <==> forall i :: 0 <= i < |bs| ==> PrefillFirst(bs[i])
  {
    hide Layout, PrefillTokens, DecodeTokens;
    if |bs| > 0 {
      var n := |bs| - 1;
      AllPartsLayout(bs[..n]);
      LayoutConcat(AllPrefill(bs[..n]), AllDecode(bs[..n]), PrefillTokens(bs[n]), DecodeTokens(bs[n]));
      LayoutIsPrefillFirst(bs[n]);
      assert forall i :: 0 <= i < n ==> bs[..n][i] == bs[i];
    } else {
      EmptyLayout();
    }
  }

  lemma EmptyLayout()
    ensures Layout([], [])
  {
  }

  lemma LayoutIsPrefillFirst(b: TokenBatch)
    requires AttnBatch(b)
    ensures Layout(PrefillTokens(b), DecodeTokens(b)) <==> PrefillFirst(b)
  {
  }

  /** The merged batch has its prefill tokens first exactly when every merged batch had. */
  lemma {:induction false} MergedPrefillFirstIff(bs: seq<TokenBatch>, out: TokenBatch)
    requires |bs| > 0 && (forall i :: 0 <= i < |bs| ==> AttnBatch(bs[i])) && AttnBatch(out)
    requires out.meta.numPrefill.value == |AllPrefill(bs)| && AttnTokens(out) == AllPrefill(bs) + AllDecode(bs)
    ensures PrefillFirst(out) <==> forall i :: 0 <= i < |bs| ==> PrefillFirst(bs[i])
  {
    AllPartsLayout(bs);
    assert PrefillTokens(out) == AllPrefill(bs) && DecodeTokens(out) == AllDecode(bs);
    LayoutIsPrefillFirst(out);
  }

  // ------------------------------------------------------------------ merge

  ghost predicate Mergeable(bs: seq<TokenBatch>) {
    |bs| >= 2 ==>
      match bs[0].meta.tag
      case Expert => forall i :: 0 <= i < |bs| ==> RoutedBatch(bs[i])
      case Attention => forall i :: 0 <= i < |bs| ==> AttnBatch(bs[i])
      case Tokenizer => true
  }

  /**
   * Merge batches of one kind, chosen by the tag of the first; no batches give nothing, one comes back as it is, and
   * several of a tokenizer are an error.
   */
  method Merge(bs: seq<TokenBatch>) returns (ok: bool, out: Option<TokenBatch>)
    requires Mergeable(bs)
    ensures !ok <==> |bs| >= 2 && bs[0].meta.tag == Tokenizer
    ensures out.None? <==> bs == [] || !ok
    ensures |bs| == 1 ==> out == Some(bs[0])
    ensures ok && |bs| >= 2 ==> out.value.meta.tag == bs[0].meta.tag && out.value.meta.layerId == bs[0].meta.layerId
    ensures (|bs| > 0 && bs[0].meta.tag == Expert && (forall i :: 0 <= i < |bs| ==> RoutedBatch(bs[i]))) ==>
      RoutedBatch(out.value) && RoutedTokens(out.value) == MergedTokens(bs)
    ensures (|bs| > 0 && bs[0].meta.tag == Attention && (forall i :: 0 <= i < |bs| ==> AttnBatch(bs[i]))) ==>
      && AttnBatch(out.value) && AttnTokens(out.value) == AllPrefill(bs) + AllDecode(bs)
      && out.value.meta.numPrefill.value == |AllPrefill(bs)|
  {
    if |bs| == 0 {
      return true, None;
    }
    if |bs| == 1 {
      if AttnBatch(bs[0]) {
        OneBatch(bs);
      }
      return true, Some(bs[0]);
    }
    var merged;
    if bs[0].meta.tag == Expert {
      merged := MergeByExpert(bs);
    } else if bs[0].meta.tag == Attention {
      merged := MergeByAttention(bs);
    } else {
      return false, None;
    }
    ok, out := true, Some(merged);
  }
}
