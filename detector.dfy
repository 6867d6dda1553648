/**
 * The scan controller `LinkedInResumeDetector` of content.js: its fields (content.js:18-30),
 * the card and page scans (`processProfileCard`, `processSearchResults`), `clearCache` and the
 * message cases that change its state (content.js:55-100).
 */
module Detector {
  import opened Wrappers
  import opened ProfileUrls
  import opened Settings
  import opened Batching
  import opened Scan

  /** The `action`s the content script's listener switches on; any other action gets no reply. */
  datatype Request =
    | Ping
    | RefreshCheck
    | ClearCache
    | GetStatus
    | SettingUpdated(key: string, value: Value)
    | ToggleEnabled(enabled: Value)
    | Unhandled(action: string)

  /** The replies sent with `sendResponse` (the `ping` timestamp is left out). */
  datatype Response =
    | Loaded
    | Success
    | Status(profilesChecked: int, resumesFound: int, isProcessing: bool)
    | NoReply

  /** A scan starts: no scan is running and the extension is enabled (content.js:156). */
  function Starts(isProcessing: bool, settings: SettingsMap): (r: bool)
    ensures isProcessing ==> !r
    ensures !IsEnabled(settings) ==> !r
    ensures EnabledKey !in settings ==> !r
    ensures !isProcessing && Get(settings, EnabledKey) == Bool(true) ==> r
  {
    !isProcessing && IsEnabled(settings)
  }

  /**
   * A scan that starts over a non-empty card list reaches the batch loop, which ends only for
   * a supported `maxConcurrentChecks`.
   */
  predicate ScanEnds(isProcessing: bool, settings: SettingsMap, cards: seq<Card>) {
    Starts(isProcessing, settings) && |cards| > 0 ==> !BatchStride(settings).Unsupported?
  }

  /**
   * The bookkeeping after `processSearchResults`: nothing when it does not start or when the
   * stride is NaN (a single empty batch); otherwise every card, in order.
   */
  function SearchPass(h: Heuristic, net: Network, s: ScanState, isProcessing: bool, settings: SettingsMap, cards: seq<Card>): (r: ScanState)
    ensures Inv(s) ==> Inv(r)
    ensures !Starts(isProcessing, settings) || BatchStride(settings).NaNStride? ==> r == s
    ensures r.checkedProfiles <= s.checkedProfiles + LinkedIds(cards)
    ensures Starts(isProcessing, settings) && BatchStride(settings).Stride? ==>
      r == RunCards(h, net, s, cards) && r.checkedProfiles == s.checkedProfiles + LinkedIds(cards)
  {
    RunCardsPreservesInv(h, net, s, cards);
    if Starts(isProcessing, settings) && BatchStride(settings).Stride? then RunCards(h, net, s, cards) else s
  }

  class LinkedInResumeDetector {
    const heuristic: Heuristic
    var checkedProfiles: set<string>
    var resumeCache: map<string, bool>
    var isProcessing: bool
    var settings: SettingsMap
    var profilesChecked: int
    var resumesFound: int

    /** The bookkeeping fields as a value. */
    function Snapshot(): ScanState
      reads this
    {
      ScanState(checkedProfiles, resumeCache, profilesChecked, resumesFound)
    }

    ghost predicate Valid()
      reads this
    {
      Inv(Snapshot())
    }

    constructor (h: Heuristic)
      ensures heuristic == h
      ensures Snapshot() == Cleared && Valid()
      ensures !isProcessing && settings == DefaultSettings
    {
      heuristic := h;
      checkedProfiles := {};
      resumeCache := map[];
      isProcessing := false;
      settings := DefaultSettings;
      profilesChecked := 0;
      resumesFound := 0;
      ClearedSatisfiesInv();
    }

    /** `loadSettings()`: the reply to `getSettings`, when there is one, is merged over the settings. */
    method LoadSettings(response: Option<SettingsMap>)
      modifies this
      ensures settings == if response.Some? then Merge(old(settings), response.value) else old(settings)
      ensures Snapshot() == old(Snapshot()) && isProcessing == old(isProcessing)
    {
      if response.Some? {
        settings := Merge(settings, response.value);
      }
    }

    /** `processProfileCard(card)`, with every fetch answered by `net`. */
    method ProcessProfileCard(card: Card, net: Network)
      modifies this
      ensures Snapshot() == StepCard(heuristic, net, old(Snapshot()), card)
      ensures settings == old(settings) && isProcessing == old(isProcessing)
      ensures old(Valid()) ==> Valid()
    {
      if Valid() {
        StepCardPreservesInv(heuristic, net, Snapshot(), card);
      }
      match card
      case None =>
        // no profile link in the card (or one without an href, whose TypeError is caught)
        return;
      case Some(profileUrl) =>
        var profileId := ExtractProfileId(profileUrl);
        if profileId in checkedProfiles {
          return;
        }
        checkedProfiles := checkedProfiles + {profileId};
        if profileId in resumeCache {
          // the cached verdict is shown again; nothing else changes
          return;
        }
        var hasResume := match net(profileUrl) case None => false case Some(html) => heuristic.profileEvidence(html);
        var finalResult := hasResume;
        if hasResume {
          var featured := net(FeaturedUrl(profileUrl));
          match featured
          case None =>
            finalResult := false;
          case Some(featuredHtml) =>
            if !heuristic.featuredEvidence(featuredHtml) {
              finalResult := false;
            }
        }
        resumeCache := resumeCache[profileId := finalResult];
        profilesChecked := profilesChecked + 1;
        if finalResult {
          resumesFound := resumesFound + 1;
        }
    }

    /**
     * `processSearchResults()` over the cards found on the page. The ghost result is the list of
     * batches the loop handed to `Promise.all`, processed here one card after another.
     */
    method ProcessSearchResults(cards: seq<Card>, net: Network) returns (ghost batches: seq<seq<Card>>)
      requires ScanEnds(isProcessing, settings, cards)
      modifies this
      ensures settings == old(settings)
      ensures isProcessing == old(isProcessing)
      ensures Starts(old(isProcessing), old(settings)) ==> !isProcessing
      ensures Snapshot() == SearchPass(heuristic, net, old(Snapshot()), old(isProcessing), old(settings), cards)
      ensures !Starts(old(isProcessing), old(settings)) || |cards| == 0 ==> batches == []
      ensures Starts(old(isProcessing), old(settings)) && |cards| > 0 && BatchStride(old(settings)).NaNStride? ==> batches == [[]]
      ensures Starts(old(isProcessing), old(settings)) && BatchStride(old(settings)).Stride? ==>
        && batches == Batches(cards, BatchStride(old(settings)).size)
        && Snapshot() == RunBatches(heuristic, net, old(Snapshot()), batches)
      ensures old(Valid()) ==> Valid()
    {
      batches := [];
      if isProcessing || !IsEnabled(settings) {
        return;
      }
      isProcessing := true;
      if |cards| == 0 {
        isProcessing := false;
        return;
      }
      var stride := BatchStride(settings);
      if stride.NaNStride? {
        // slice(0, NaN) is empty, then i becomes NaN and the loop test fails
        batches := [cards[0..0]];
      } else {
        batches := RunBatchLoop(cards, stride.size, net);
        BatchedScanIsSequential(heuristic, net, old(Snapshot()), cards, stride.size);
      }
      isProcessing := false;
      // updateBadge() only sends a message
      RunCardsPreservesInv(heuristic, net, old(Snapshot()), cards);
    }

    /** The loop `for (i = 0; i < n; i += batchSize)` of content.js:223-226, for a whole-number stride. */
    method RunBatchLoop(cards: seq<Card>, batchSize: nat, net: Network) returns (ghost batches: seq<seq<Card>>)
      requires batchSize >= 1
      modifies this
      ensures batches == Batches(cards, batchSize)
      ensures Snapshot() == RunBatches(heuristic, net, old(Snapshot()), batches)
      ensures settings == old(settings) && isProcessing == old(isProcessing)
    {
      batches := [];
      var n := |cards|;
      var i := 0;
      ghost var done := 0;
      while i < n
        invariant 0 <= i && done == Min(i, n)
        invariant Batches(cards, batchSize) == batches + Batches(cards[done..], batchSize)
        invariant Snapshot() == RunBatches(heuristic, net, old(Snapshot()), batches)
        invariant settings == old(settings) && isProcessing == old(isProcessing)
        decreases n - i
      {
        var next := Min(i + batchSize, n);
        var batch := cards[i..next];
        assert cards[done..] == cards[i..];
        BatchesNext(cards, i, batchSize, batches);
        ghost var partition := Batches(cards[next..], batchSize);
        ProcessBatch(batch, net);
        RunBatchesSnoc(heuristic, net, old(Snapshot()), batches, batch);
        batches := batches + [batch];
        i := i + batchSize;
        done := next;
        assert Batches(cards, batchSize) == batches + partition;
      }
      assert cards[done..] == [];
    }

    /** `await Promise.all(batch.map(card => this.processProfileCard(card)))`, one card at a time. */
    method ProcessBatch(batch: seq<Card>, net: Network)
      modifies this
      ensures Snapshot() == RunCards(heuristic, net, old(Snapshot()), batch)
      ensures settings == old(settings) && isProcessing == old(isProcessing)
    {
      var j := 0;
      while j < |batch|
        invariant 0 <= j <= |batch|
        invariant Snapshot() == RunCards(heuristic, net, old(Snapshot()), batch[..j])
        invariant settings == old(settings) && isProcessing == old(isProcessing)
      {
        ProcessProfileCard(batch[j], net);
        assert batch[..j + 1][..j] == batch[..j];
        j := j + 1;
      }
      assert batch[..j] == batch;
    }

    /** `clearCache()`: both collections emptied and both counters zeroed (indicators are DOM). */
    method ClearCache()
      modifies this
      ensures Snapshot() == Cleared && Valid()
      ensures settings == old(settings) && isProcessing == old(isProcessing)
    {
      checkedProfiles := {};
      resumeCache := map[];
      profilesChecked := 0;
      resumesFound := 0;
      ClearedSatisfiesInv();
    }

    /** The `getStatus` reply: the counters and the processing flag. */
    method GetStatus() returns (r: Response)
      ensures r == Status(profilesChecked, resumesFound, isProcessing)
      ensures Valid() ==> 0 <= r.resumesFound <= r.profilesChecked == |resumeCache|
    {
      r := Status(profilesChecked, resumesFound, isProcessing);
      if Valid() {
        InvBounds(Snapshot());
      }
    }

    /** `refreshCheck`: `clearCache()` then `processSearchResults()`. */
    method RefreshCheck(page: seq<Card>, net: Network)
      requires ScanEnds(isProcessing, settings, page)
      modifies this
      ensures settings == old(settings) && isProcessing == old(isProcessing)
      ensures Snapshot() == SearchPass(heuristic, net, Cleared, old(isProcessing), old(settings), page)
      ensures Valid()
      ensures Starts(old(isProcessing), old(settings)) && BatchStride(old(settings)).Stride? ==>
        profilesChecked == |LinkedIds(page)| && resumeCache.Keys == LinkedIds(page)
    {
      ClearCache();
      ghost var batches := ProcessSearchResults(page, net);
      RefreshCounts(heuristic, net, page);
    }

    /**
     * `settingUpdated`: writes `settings[key] = value`; when the key is "enabled", a truthy value
     * starts a scan and a falsy one only removes the indicators.
     */
    method SettingUpdated(key: string, value: Value, page: seq<Card>, net: Network)
      requires key == EnabledKey && Truthy(value) ==> ScanEnds(isProcessing, Update(settings, key, value), page)
      modifies this
      ensures settings == Update(old(settings), key, value)
      ensures isProcessing == old(isProcessing)
      ensures Snapshot() ==
        if key == EnabledKey && Truthy(value)
        then SearchPass(heuristic, net, old(Snapshot()), old(isProcessing), settings, page)
        else old(Snapshot())
      ensures old(Valid()) ==> Valid()
    {
      settings := Update(settings, key, value);
      if key == EnabledKey {
        if Truthy(value) {
          ghost var batches := ProcessSearchResults(page, net);
        }
        // otherwise clearIndicators(), which touches only the DOM
      }
    }

    /** `toggleEnabled`: `settings.enabled = enabled`, then a scan or indicator removal as above. */
    method ToggleEnabled(enabled: Value, page: seq<Card>, net: Network)
      requires Truthy(enabled) ==> ScanEnds(isProcessing, Update(settings, EnabledKey, enabled), page)
      modifies this
      ensures settings == Update(old(settings), EnabledKey, enabled)
      ensures isProcessing == old(isProcessing)
      ensures Snapshot() ==
        if Truthy(enabled)
        then SearchPass(heuristic, net, old(Snapshot()), old(isProcessing), settings, page)
        else old(Snapshot())
      ensures old(Valid()) ==> Valid()
    {
      settings := Update(settings, EnabledKey, enabled);
      if Truthy(enabled) {
        ghost var batches := ProcessSearchResults(page, net);
      }
    }

    /** The message a request may start a scan with ends. */
    predicate RequestEnds(req: Request, page: seq<Card>)
      reads this
    {
      match req
      case RefreshCheck => ScanEnds(isProcessing, settings, page)
      case SettingUpdated(key, value) =>
        key == EnabledKey && Truthy(value) ==> ScanEnds(isProcessing, Update(settings, key, value), page)
      case ToggleEnabled(enabled) =>
        Truthy(enabled) ==> ScanEnds(isProcessing, Update(settings, EnabledKey, enabled), page)
      case _ => true
    }

    /** The message listener's switch (content.js:55-100). */
    method OnMessage(req: Request, page: seq<Card>, net: Network) returns (resp: Response)
      requires RequestEnds(req, page)
      modifies this
      ensures req.Ping? ==> resp == Loaded
      ensures req.GetStatus? ==> resp == Status(old(profilesChecked), old(resumesFound), old(isProcessing))
      ensures req.Unhandled? ==> resp == NoReply
      ensures req.RefreshCheck? || req.ClearCache? || req.SettingUpdated? || req.ToggleEnabled? ==> resp == Success
      ensures req.Ping? || req.GetStatus? || req.Unhandled? ==>
        Snapshot() == old(Snapshot()) && settings == old(settings)
      ensures req.ClearCache? ==> Snapshot() == Cleared && settings == old(settings)
      ensures !req.SettingUpdated? && !req.ToggleEnabled? ==> settings == old(settings)
      ensures req.SettingUpdated? ==> settings == Update(old(settings), req.key, req.value)
      ensures req.ToggleEnabled? ==> settings == Update(old(settings), EnabledKey, req.enabled)
      ensures req.RefreshCheck? ==>
        Snapshot() == SearchPass(heuristic, net, Cleared, old(isProcessing), old(settings), page)
      ensures req.SettingUpdated? ==>
        (Snapshot() ==
          if req.key == EnabledKey && Truthy(req.value)
          then SearchPass(heuristic, net, old(Snapshot()), old(isProcessing), settings, page)
          else old(Snapshot()))
      ensures req.ToggleEnabled? ==>
        (Snapshot() ==
          if Truthy(req.enabled)
          then SearchPass(heuristic, net, old(Snapshot()), old(isProcessing), settings, page)
          else old(Snapshot()))
      ensures isProcessing == old(isProcessing)
      ensures old(Valid()) ==> Valid()
    {
      match req
      case Ping =>
        resp := Loaded;
      case RefreshCheck =>
        RefreshCheck(page, net);
        resp := Success;
      case ClearCache =>
        ClearCache();
        resp := Success;
      case GetStatus =>
        resp := GetStatus();
      case SettingUpdated(key, value) =>
        SettingUpdated(key, value, page, net);
        resp := Success;
      case ToggleEnabled(enabled) =>
        ToggleEnabled(enabled, page, net);
        resp := Success;
      case Unhandled(_) =>
        resp := NoReply;
    }
  }
}
