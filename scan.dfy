/**
 * The per-page bookkeeping of the scan controller as values: the checked-profile set, the
 * verdict cache and the two counters of `LinkedInResumeDetector` (content.js:18-30), the
 * effect of one result card (`processProfileCard`, content.js:232-341) and of a sequence of
 * cards and of batches of cards (`processSearchResults`, content.js:221-226). The class in
 * detector.dfy updates its fields exactly as these functions say.
 */
module Scan {
  import opened Wrappers
  import opened ProfileUrls
  import opened Batching

  type Html = string

  /**
   * What `fetch(url)` followed by `response.text()` yields during one scan: the page, or
   * None for a non-ok status or a thrown error. Both are treated alike by the source.
   */
  type Network = Url -> Option<Html>

  /**
   * The two regular-expression batteries, left uninterpreted: the first pass over the profile
   * page (content.js:363-430) and the confirmation over the featured section (content.js:289-297).
   */
  datatype Heuristic = Heuristic(profileEvidence: Html -> bool, featuredEvidence: Html -> bool)

  /** A result card, reduced to the `href` of its profile link, or None when it has none. */
  type Card = Option<Url>

  datatype ScanState = ScanState(
    checkedProfiles: set<string>,
    resumeCache: map<string, bool>,
    profilesChecked: int,
    resumesFound: int)

  /** The profiles whose cached verdict is "has a resume". */
  function TrueKeys(m: map<string, bool>): set<string> {
    set id | id in m && m[id]
  }

  /**
   * What the bookkeeping keeps: every cached profile has been marked checked, and the counters
   * are the number of cached verdicts and the number of positive ones.
   */
  ghost predicate Inv(s: ScanState) {
    && s.resumeCache.Keys <= s.checkedProfiles
    && s.profilesChecked == |s.resumeCache|
    && s.resumesFound == |TrueKeys(s.resumeCache)|
  }

  /** The state after `clearCache` (content.js:614-618), and after construction. */
  const Cleared: ScanState := ScanState({}, map[], 0, 0)

  lemma ClearedSatisfiesInv()
    ensures Inv(Cleared)
  {
    assert TrueKeys(Cleared.resumeCache) == {};
  }

  lemma {:induction false} SubsetCardinality(a: set<string>, b: set<string>)
    requires a <= b
    ensures |a| <= |b|
    decreases |b|
  {
    if a != {} {
      var x :| x in a;
      SubsetCardinality(a - {x}, b - {x});
    }
  }

  /** A status report never shows more resumes than checked profiles. */
  lemma InvBounds(s: ScanState)
    requires Inv(s)
    ensures 0 <= s.resumesFound <= s.profilesChecked
  {
    SubsetCardinality(TrueKeys(s.resumeCache), s.resumeCache.Keys);
  }

  /**
   * The verdict of `processProfileCard` for a not yet checked profile: the first pass of
   * `checkProfileForResume` on the profile page (false when the fetch fails) and, only when
   * that found evidence, the featured-section fetch, which must succeed and pass the second
   * battery. Any failed fetch makes the verdict false.
   */
  function FinalVerdict(h: Heuristic, net: Network, profileUrl: Url): (r: bool)
    ensures r <==>
      && net(profileUrl).Some?
      && h.profileEvidence(net(profileUrl).value)
      && net(FeaturedUrl(profileUrl)).Some?
      && h.featuredEvidence(net(FeaturedUrl(profileUrl)).value)
    ensures net(profileUrl).None? || net(FeaturedUrl(profileUrl)).None? ==> !r
  {
    var hasResume := match net(profileUrl)
      case None => false
      case Some(html) => h.profileEvidence(html);
    if !hasResume then false
    else match net(FeaturedUrl(profileUrl))
      case None => false
      case Some(featuredHtml) => h.featuredEvidence(featuredHtml)
  }

  /** The profile id a card contributes to the checked set: none for a card without a link. */
  function CardIds(card: Card): set<string> {
    match card
    case None => {}
    case Some(url) => {ExtractProfileId(url)}
  }

  /**
   * One card. A card without a link, or whose profile id is already checked, changes nothing.
   * Otherwise the id is marked checked; a cached id keeps its verdict; a new id gets the
   * verdict cached and counted.
   */
  function StepCard(h: Heuristic, net: Network, s: ScanState, card: Card): (r: ScanState)
    ensures r.checkedProfiles == s.checkedProfiles + CardIds(card)
    ensures CardIds(card) <= s.checkedProfiles ==> r == s
    ensures forall id :: id in s.resumeCache ==> id in r.resumeCache && r.resumeCache[id] == s.resumeCache[id]
    ensures Inv(s) && card.Some? && ExtractProfileId(card.value) !in s.checkedProfiles ==>
      var id := ExtractProfileId(card.value);
      var verdict := FinalVerdict(h, net, card.value);
      && r.resumeCache == s.resumeCache[id := verdict]
      && r.profilesChecked == s.profilesChecked + 1
      && r.resumesFound == s.resumesFound + (if verdict then 1 else 0)
  {
    match card
    case None => s
    case Some(profileUrl) =>
      var profileId := ExtractProfileId(profileUrl);
      if profileId in s.checkedProfiles then s
      else
        var checked := s.checkedProfiles + {profileId};
        if profileId in s.resumeCache then s.(checkedProfiles := checked)
        else
          var finalResult := FinalVerdict(h, net, profileUrl);
          ScanState(
            checked,
            s.resumeCache[profileId := finalResult],
            s.profilesChecked + 1,
            if finalResult then s.resumesFound + 1 else s.resumesFound)
  }

  /** One card keeps the bookkeeping invariant, so its cache-hit branch is never taken. */
  lemma StepCardPreservesInv(h: Heuristic, net: Network, s: ScanState, card: Card)
    requires Inv(s)
    ensures Inv(StepCard(h, net, s, card))
  {
    var r := StepCard(h, net, s, card);
    if card.Some? && ExtractProfileId(card.value) !in s.checkedProfiles {
      var id := ExtractProfileId(card.value);
      assert id !in s.resumeCache;
      if r.resumeCache[id] {
        assert TrueKeys(r.resumeCache) == TrueKeys(s.resumeCache) + {id};
      } else {
        assert TrueKeys(r.resumeCache) == TrueKeys(s.resumeCache);
      }
    }
  }

  /** The profile ids of a sequence of cards. */
  function LinkedIds(cards: seq<Card>): (ids: set<string>)
    ensures forall c :: c in cards ==> CardIds(c) <= ids
  {
    if cards == [] then {}
    else LinkedIds(cards[..|cards| - 1]) + CardIds(cards[|cards| - 1])
  }

  /** Every linked id comes from some card, so `LinkedIds` is exactly the union of the cards' ids. */
  lemma {:induction false} LinkedIdsComeFromCards(cards: seq<Card>)
    ensures forall id :: id in LinkedIds(cards) ==> exists c :: c in cards && id in CardIds(c)
    decreases |cards|
  {
    if cards != [] {
      var init := cards[..|cards| - 1];
      LinkedIdsComeFromCards(init);
      forall id | id in LinkedIds(cards)
        ensures exists c :: c in cards && id in CardIds(c)
      {
        if id in LinkedIds(init) {
          var c :| c in init && id in CardIds(c);
          assert c in cards;
        } else {
          assert cards[|cards| - 1] in cards;
        }
      }
    }
  }

  /** The cards processed one after another, as a batch of `Promise.all` does in the model. */
  function RunCards(h: Heuristic, net: Network, s: ScanState, cards: seq<Card>): (r: ScanState)
    ensures r.checkedProfiles == s.checkedProfiles + LinkedIds(cards)
    ensures forall id :: id in s.resumeCache ==> id in r.resumeCache && r.resumeCache[id] == s.resumeCache[id]
    decreases |cards|
  {
    if cards == [] then s
    else StepCard(h, net, RunCards(h, net, s, cards[..|cards| - 1]), cards[|cards| - 1])
  }

  /** The batches processed one after another: the next batch starts when the previous one is done. */
  function RunBatches(h: Heuristic, net: Network, s: ScanState, batches: seq<seq<Card>>): (r: ScanState)
    decreases |batches|
  {
    if batches == [] then s
    else RunCards(h, net, RunBatches(h, net, s, batches[..|batches| - 1]), batches[|batches| - 1])
  }

  /** A further batch runs after all earlier ones. */
  lemma RunBatchesSnoc(h: Heuristic, net: Network, s: ScanState, batches: seq<seq<Card>>, batch: seq<Card>)
    ensures RunBatches(h, net, s, batches + [batch]) == RunCards(h, net, RunBatches(h, net, s, batches), batch)
  {
    assert (batches + [batch])[..|batches|] == batches;
  }

  lemma {:induction false} RunCardsPreservesInv(h: Heuristic, net: Network, s: ScanState, cards: seq<Card>)
    ensures Inv(s) ==> Inv(RunCards(h, net, s, cards))
    decreases |cards|
  {
    if cards != [] && Inv(s) {
      RunCardsPreservesInv(h, net, s, cards[..|cards| - 1]);
      StepCardPreservesInv(h, net, RunCards(h, net, s, cards[..|cards| - 1]), cards[|cards| - 1]);
    }
  }

  lemma {:induction false} RunCardsAppend(h: Heuristic, net: Network, s: ScanState, a: seq<Card>, b: seq<Card>)
    ensures RunCards(h, net, s, a + b) == RunCards(h, net, RunCards(h, net, s, a), b)
    decreases |b|
  {
    if b == [] {
      assert a + b == a;
    } else {
      var b' := b[..|b| - 1];
      assert (a + b)[..|a + b| - 1] == a + b';
      assert (a + b)[|a + b| - 1] == b[|b| - 1];
      RunCardsAppend(h, net, s, a, b');
    }
  }

  /** Processing the cards batch by batch is processing them one by one, in order. */
  lemma {:induction false} RunBatchesIsRunCards(h: Heuristic, net: Network, s: ScanState, batches: seq<seq<Card>>)
    ensures RunBatches(h, net, s, batches) == RunCards(h, net, s, Flatten(batches))
    decreases |batches|
  {
    if batches != [] {
      var front := batches[..|batches| - 1];
      var last := batches[|batches| - 1];
      assert batches == front + [last];
      RunBatchesIsRunCards(h, net, s, front);
      FlattenSnoc(front, last);
      RunCardsAppend(h, net, s, Flatten(front), last);
    }
  }

  /**
   * The scan loop with a stride of `k` cards processes every card exactly once, in page order:
   * its batches partition the cards.
   */
  lemma BatchedScanIsSequential(h: Heuristic, net: Network, s: ScanState, cards: seq<Card>, k: nat)
    requires k >= 1
    ensures RunBatches(h, net, s, Batches(cards, k)) == RunCards(h, net, s, cards)
  {
    RunBatchesIsRunCards(h, net, s, Batches(cards, k));
    BatchesFlatten(cards, k);
  }

  /**
   * A second pass over cards whose profiles are all checked already fetches nothing and
   * changes nothing, whatever the network would answer.
   */
  lemma {:induction false} RescanChangesNothing(h: Heuristic, net: Network, s: ScanState, cards: seq<Card>)
    requires LinkedIds(cards) <= s.checkedProfiles
    ensures RunCards(h, net, s, cards) == s
    decreases |cards|
  {
    if cards != [] {
      var front := cards[..|cards| - 1];
      assert LinkedIds(front) <= LinkedIds(cards);
      RescanChangesNothing(h, net, s, front);
    }
  }

  /**
   * When every checked profile has a verdict (as after `clearCache`), it still does after a
   * pass, and then the checked profiles are exactly the old ones and those linked from the cards.
   */
  lemma {:induction false} RunCardsSettlesEveryCard(h: Heuristic, net: Network, s: ScanState, cards: seq<Card>)
    requires Inv(s) && s.resumeCache.Keys == s.checkedProfiles
    ensures RunCards(h, net, s, cards).resumeCache.Keys == s.checkedProfiles + LinkedIds(cards)
    decreases |cards|
  {
    if cards != [] {
      var front := cards[..|cards| - 1];
      RunCardsSettlesEveryCard(h, net, s, front);
      RunCardsPreservesInv(h, net, s, front);
    }
  }

  /**
   * `refreshCheck` on a page: afterwards `profilesChecked` is the number of distinct profile
   * ids linked from the cards and `resumesFound` the number of them with a positive verdict.
   */
  lemma RefreshCounts(h: Heuristic, net: Network, cards: seq<Card>)
    ensures var r := RunCards(h, net, Cleared, cards);
      && r.resumeCache.Keys == LinkedIds(cards)
      && r.profilesChecked == |LinkedIds(cards)|
      && r.resumesFound == |TrueKeys(r.resumeCache)| <= r.profilesChecked
  {
    ClearedSatisfiesInv();
    RunCardsSettlesEveryCard(h, net, Cleared, cards);
    RunCardsPreservesInv(h, net, Cleared, cards);
    InvBounds(RunCards(h, net, Cleared, cards));
  }

  /**
   * The verdict cached for a profile that was not checked before the pass is the one computed
   * from the first card linking to it; later cards with the same id are skipped.
   */
  lemma {:induction false} RunCardsVerdictOfFirstCard(h: Heuristic, net: Network, s: ScanState, cards: seq<Card>, i: nat)
    requires Inv(s)
    requires i < |cards| && cards[i].Some?
    requires ExtractProfileId(cards[i].value) !in s.checkedProfiles + LinkedIds(cards[..i])
    ensures var id := ExtractProfileId(cards[i].value);
      && id in RunCards(h, net, s, cards).resumeCache
      && RunCards(h, net, s, cards).resumeCache[id] == FinalVerdict(h, net, cards[i].value)
    decreases |cards|
  {
    var front := cards[..|cards| - 1];
    var last := cards[|cards| - 1];
    var id := ExtractProfileId(cards[i].value);
    var before := RunCards(h, net, s, front);
    assert RunCards(h, net, s, cards) == StepCard(h, net, before, last);
    if i < |cards| - 1 {
      assert front[..i] == cards[..i];
      RunCardsVerdictOfFirstCard(h, net, s, front, i);
    } else {
      assert front == cards[..i];
      RunCardsPreservesInv(h, net, s, front);
      assert id !in before.checkedProfiles;
    }
  }

  /** When the first battery never fires, a pass finds no resume, whatever the network answers. */
  lemma {:induction false} NoEvidenceNoResumes(h: Heuristic, net: Network, s: ScanState, cards: seq<Card>)
    requires forall html :: !h.profileEvidence(html)
    requires Inv(s)
    ensures RunCards(h, net, s, cards).resumesFound == s.resumesFound
    decreases |cards|
  {
    if cards != [] {
      var front := cards[..|cards| - 1];
      NoEvidenceNoResumes(h, net, s, front);
      RunCardsPreservesInv(h, net, s, front);
    }
  }

  /**
   * Three result cards for three different profiles, all fetched, none with a matching
   * pattern: after a refresh three profiles are checked and no resume is found.
   */
  lemma ThreeProfilesWithoutResume(h: Heuristic, net: Network, a: Url, b: Url, c: Url)
    requires forall html :: !h.profileEvidence(html)
    requires ExtractProfileId(a) != ExtractProfileId(b)
    requires ExtractProfileId(a) != ExtractProfileId(c)
    requires ExtractProfileId(b) != ExtractProfileId(c)
    ensures RunCards(h, net, Cleared, [Some(a), Some(b), Some(c)]).profilesChecked == 3
    ensures RunCards(h, net, Cleared, [Some(a), Some(b), Some(c)]).resumesFound == 0
  {
    var cards: seq<Card> := [Some(a), Some(b), Some(c)];
    var ia, ib, ic := ExtractProfileId(a), ExtractProfileId(b), ExtractProfileId(c);
    assert CardIds(Some(a)) == {ia} && CardIds(Some(b)) == {ib} && CardIds(Some(c)) == {ic};
    assert LinkedIds([Some(a)]) == {ia} by {
      assert [Some(a)][..0] == [];
    }
    assert LinkedIds([Some(a), Some(b)]) == {ia, ib} by {
      assert [Some(a), Some(b)][..1] == [Some(a)];
    }
    assert LinkedIds(cards) == {ia, ib, ic} by {
      assert cards[..2] == [Some(a), Some(b)];
    }
    assert |{ia, ib, ic}| == 3;
    RefreshCounts(h, net, cards);
    ClearedSatisfiesInv();
    NoEvidenceNoResumes(h, net, Cleared, cards);
  }
}
