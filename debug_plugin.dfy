/**
 * The debug plugin: at initialization it discovers its siblings, settles the
 * tracker list, builds the allow-lists, hooks every routed tracker and
 * creates its debug bin; the pre-call observer counts calls per tracker; and
 * processing forwards each telemetry item to the next plugin once.
 */
module Plugin {
  import opened Extensions
  import opened AllowLists
  import opened Routing

  /** The trackers used when none were given to the constructor. */
  const DefaultTrackers: seq<string> := [
    "trackEvent",
    "trackPageView",
    "trackPageViewPerformance",
    "trackException",
    "trackTrace",
    "trackMetric",
    "trackDependencyData",
    "throwInternal",
    "logInternalMessage",
    "triggerSend",
    "_sender"
  ]

  /** The bin the pre-call observer falls back to for a tracker without one. */
  const DefaultBin: string := "default"

  /** A telemetry item, opaque to the plugin. */
  datatype TelemetryItem = TelemetryItem(name: string, baseType: string)

  /**
   * How initialization ends: normally, or with the failure caused by reading
   * the prototype of the first unbound sibling.
   */
  datatype InitOutcome = Initialized | MissingSibling(slot: Slot)

  /**
   * The first unbound slot in the order the allow-lists are built
   * (analytics, properties, ajax, channel), or None when all four are bound.
   */
  function FirstUnbound(analytics: Option<Extension>, properties: Option<Extension>,
                        ajax: Option<Extension>, channel: Option<Extension>): (r: Option<Slot>)
    ensures r.None? <==> analytics.Some? && properties.Some? && ajax.Some? && channel.Some?
    ensures r == Some(Analytics) <==> analytics.None?
    ensures r == Some(Properties) <==> analytics.Some? && properties.None?
    ensures r == Some(AjaxDependency) <==> analytics.Some? && properties.Some? && ajax.None?
  {
    if analytics.None? then Some(Analytics)
    else if properties.None? then Some(Properties)
    else if ajax.None? then Some(AjaxDependency)
    else if channel.None? then Some(Channel)
    else None
  }

  /** The five allow-lists once all four siblings are bound. */
  function Wire(analytics: Extension, properties: Extension, ajax: Extension, channel: Extension,
                diagLog: seq<Member>, trackers: seq<string>): ProtoFns
  {
    ProtoFns(
      AllowList(Some(analytics.identifier), analytics.proto, trackers),
      AllowList(Some(properties.identifier), properties.proto, trackers),
      AllowList(Some(ajax.identifier), ajax.proto, trackers),
      AllowList(Some(channel.identifier), channel.proto, trackers),
      AllowList(None, diagLog, trackers))
  }

  /**
   * `_sender` is only ever allowed on the channel, exactly when it is
   * tracked, and it is always routed to the channel instance rather than to
   * any prototype, once the siblings carry their slots' identifiers.
   */
  lemma SenderGoesToChannelInstance(analytics: Extension, properties: Extension, ajax: Extension,
                                    channel: Extension, diagLog: seq<Member>, trackers: seq<string>)
    requires analytics.identifier == AnalyticsId && properties.identifier == PropertiesId
    requires ajax.identifier == AjaxDependencyId && channel.identifier == ChannelId
    ensures var fns := Wire(analytics, properties, ajax, channel, diagLog, trackers);
      && SenderName !in fns.analytics && SenderName !in fns.properties
      && SenderName !in fns.ajax && SenderName !in fns.diagLog
      && (SenderName in fns.channel <==> SenderName in trackers)
      && Route(fns, SenderName) == Some(ChannelInstance)
  {
  }

  /**
   * The bins after one call of the pre-call observer for `itemType`: the
   * bin of `itemType`, else the fallback bin, gains one call; every other
   * bin, and every name and position, is unchanged. None when neither bin
   * exists (the observer fails).
   */
  function PreProcessed(bins: map<string, Bin>, itemType: string): (r: Option<map<string, Bin>>)
    ensures r.None? <==> itemType !in bins && DefaultBin !in bins
    ensures r.Some? ==> r.value.Keys == bins.Keys
    ensures r.Some? ==>
      var hit := if itemType in bins then itemType else DefaultBin;
      && r.value[hit].count == bins[hit].count + 1
      && r.value[hit].name == bins[hit].name
      && r.value[hit].position == bins[hit].position
      && forall k :: k in bins && k != hit ==> r.value[k] == bins[k]
  {
    var key := if itemType in bins then itemType else DefaultBin;
    if key in bins then
      Some(bins[key := bins[key].(count := bins[key].count + 1)])
    else
      None
  }

  /**
   * Right after initialization, the observer of any hooked tracker counts
   * into that tracker's own bin, taking it from 0 to 1.
   */
  lemma FirstCallCountsOnce(fns: ProtoFns, trackers: seq<string>, t: string)
    requires t in trackers && Route(fns, t).Some?
    ensures var bins := Bins(fns, trackers, |trackers|);
      && t in bins
      && PreProcessed(bins, t).Some?
      && PreProcessed(bins, t).value[t].count == 1
  {
    assert trackers[..|trackers|] == trackers;
    BinsCharacterized(fns, trackers, |trackers|, t);
  }

  class DebugPlugin {
    /** The trackers given to the constructor, settled by initialization. */
    var trackers: Option<seq<string>>
    var analyticsExt: Option<Extension>
    var ajaxDependencyExt: Option<Extension>
    var propertiesExt: Option<Extension>
    var channelPluginExt: Option<Extension>
    /** The debug bins, keyed by tracker name. */
    var debugBins: map<string, Bin>
    /** Every instrumentation request issued so far, in order. */
    ghost var instrumented: seq<Hook>
    /** Every item handed to the next plugin so far, in order. */
    ghost var forwarded: seq<TelemetryItem>

    constructor (trackers: Option<seq<string>>)
      ensures this.trackers == trackers
      ensures analyticsExt.None? && ajaxDependencyExt.None? && propertiesExt.None? && channelPluginExt.None?
      ensures debugBins == map[] && instrumented == [] && forwarded == []
    {
      this.trackers := trackers;
      analyticsExt, ajaxDependencyExt, propertiesExt, channelPluginExt := None, None, None, None;
      debugBins := map[];
      instrumented, forwarded := [], [];
    }

    /**
     * Discovery, default trackers, allow-lists and routing. A sibling still
     * unbound when the allow-lists are built ends initialization with
     * MissingSibling, after the bins were reset and before any hook.
     */
    method Initialize(extensions: seq<Extension>, diagLog: seq<Member>) returns (outcome: InitOutcome)
      modifies this
      ensures analyticsExt == LastWithId(extensions, AnalyticsId).OrElse(old(analyticsExt))
      ensures ajaxDependencyExt == LastWithId(extensions, AjaxDependencyId).OrElse(old(ajaxDependencyExt))
      ensures propertiesExt == LastWithId(extensions, PropertiesId).OrElse(old(propertiesExt))
      ensures channelPluginExt == LastWithId(extensions, ChannelId).OrElse(old(channelPluginExt))
      ensures trackers == if old(trackers).None? then Some(DefaultTrackers) else old(trackers)
      ensures forwarded == old(forwarded)
      ensures outcome == match FirstUnbound(analyticsExt, propertiesExt, ajaxDependencyExt, channelPluginExt)
                         case Some(slot) => MissingSibling(slot)
                         case None => Initialized
      ensures outcome.MissingSibling? ==> debugBins == map[] && instrumented == old(instrumented)
      ensures outcome.Initialized? ==>
        var fns := Wire(analyticsExt.value, propertiesExt.value, ajaxDependencyExt.value,
                        channelPluginExt.value, diagLog, trackers.value);
        && debugBins == Bins(fns, trackers.value, |trackers.value|)
        && instrumented == old(instrumented) + Hooks(fns, trackers.value)
    {
      DiscoverSiblings(extensions);

      if trackers.None? {
        trackers := Some(DefaultTrackers);
      }
      var ts := trackers.value;
      debugBins := map[];

      // The allow-lists, in the order analytics, properties, ajax, channel,
      // diagnostic logger; reading the prototype of an unbound sibling fails.
      if analyticsExt.None? {
        return MissingSibling(Analytics);
      }
      var analyticsFns := CollectProtoFns(Some(analyticsExt.value.identifier), analyticsExt.value.proto, ts);
      if propertiesExt.None? {
        return MissingSibling(Properties);
      }
      var propertiesFns := CollectProtoFns(Some(propertiesExt.value.identifier), propertiesExt.value.proto, ts);
      if ajaxDependencyExt.None? {
        return MissingSibling(AjaxDependency);
      }
      var ajaxFns := CollectProtoFns(Some(ajaxDependencyExt.value.identifier), ajaxDependencyExt.value.proto, ts);
      if channelPluginExt.None? {
        return MissingSibling(Channel);
      }
      var channelFns := CollectProtoFns(Some(channelPluginExt.value.identifier), channelPluginExt.value.proto, ts);
      var diagLogFns := CollectProtoFns(None, diagLog, ts);
      var fns := ProtoFns(analyticsFns, propertiesFns, ajaxFns, channelFns, diagLogFns);

      InstrumentTrackers(fns, ts);
      return Initialized;
    }

    /**
     * Discovery: scans the siblings in order; each one carrying a slot's
     * identifier overwrites that slot, so the last one wins, and a slot with
     * no such sibling keeps its value.
     */
    method DiscoverSiblings(extensions: seq<Extension>)
      modifies this`analyticsExt, this`ajaxDependencyExt, this`propertiesExt, this`channelPluginExt
      ensures analyticsExt == LastWithId(extensions, AnalyticsId).OrElse(old(analyticsExt))
      ensures ajaxDependencyExt == LastWithId(extensions, AjaxDependencyId).OrElse(old(ajaxDependencyExt))
      ensures propertiesExt == LastWithId(extensions, PropertiesId).OrElse(old(propertiesExt))
      ensures channelPluginExt == LastWithId(extensions, ChannelId).OrElse(old(channelPluginExt))
    {
      for i := 0 to |extensions|
        invariant analyticsExt == LastWithId(extensions[..i], AnalyticsId).OrElse(old(analyticsExt))
        invariant ajaxDependencyExt == LastWithId(extensions[..i], AjaxDependencyId).OrElse(old(ajaxDependencyExt))
        invariant propertiesExt == LastWithId(extensions[..i], PropertiesId).OrElse(old(propertiesExt))
        invariant channelPluginExt == LastWithId(extensions[..i], ChannelId).OrElse(old(channelPluginExt))
      {
        assert extensions[..i + 1][..i] == extensions[..i];
        var ext := extensions[i];
        if ext.identifier == AnalyticsId {
          analyticsExt := Some(ext);
        } else if ext.identifier == AjaxDependencyId {
          ajaxDependencyExt := Some(ext);
        } else if ext.identifier == PropertiesId {
          propertiesExt := Some(ext);
        } else if ext.identifier == ChannelId {
          channelPluginExt := Some(ext);
        }
      }
      assert extensions[..|extensions|] == extensions;
    }

    /**
     * Routing: for each tracker in order, the routed ones get one
     * instrumentation request on their target and a fresh bin at
     * (index + 1) * 50; the others are skipped.
     */
    method InstrumentTrackers(fns: ProtoFns, ts: seq<string>)
      requires debugBins == map[]
      modifies this`debugBins, this`instrumented
      ensures debugBins == Bins(fns, ts, |ts|)
      ensures instrumented == old(instrumented) + Hooks(fns, ts)
    {
      for i := 0 to |ts|
        invariant debugBins == Bins(fns, ts, i)
        invariant instrumented == old(instrumented) + Hooks(fns, ts[..i])
      {
        assert ts[..i + 1][..i] == ts[..i];
        var tracker := ts[i];
        var target := Route(fns, tracker);
        if target.None? {
          continue;
        }
        instrumented := instrumented + [Hook(target.value, tracker)];
        debugBins := debugBins[tracker := Bin(tracker, 0, (i + 1) * 50)];
      }
      assert ts[..|ts|] == ts;
    }

    /**
     * One call of the pre-call observer installed for `itemType`: counts the
     * call in the tracker's bin, or in the fallback bin; fails, changing
     * nothing, when neither exists.
     */
    method PreProcessItem(itemType: string) returns (ok: bool)
      modifies this`debugBins
      ensures ok == PreProcessed(old(debugBins), itemType).Some?
      ensures ok ==> debugBins == PreProcessed(old(debugBins), itemType).value
      ensures !ok ==> debugBins == old(debugBins)
    {
      var key := if itemType in debugBins then itemType else DefaultBin;
      if key !in debugBins {
        return false;
      }
      var bin := debugBins[key];
      debugBins := debugBins[key := bin.(count := bin.count + 1)];
      return true;
    }

    /** Hands `event`, unchanged, to the next plugin exactly once. */
    method ProcessTelemetry(event: TelemetryItem)
      modifies this`forwarded
      ensures forwarded == old(forwarded) + [event]
    {
      forwarded := forwarded + [event];
    }
  }
}
