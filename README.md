# Debug plugin: sibling discovery and tracker routing

A Dafny model of the wiring done by the Application Insights debug plugin
(`DebugPlugin`) when it is initialized, and of the two small behaviours it
installs:

- **Discovery.** The plugin scans the list of sibling extensions in order. It
  binds four optional slots by exact identifier: analytics
  (`ApplicationInsightsAnalytics`), ajax dependency (`AjaxDependencyPlugin`),
  properties (`AppInsightsPropertiesPlugin`) and channel
  (`AppInsightsChannelPlugin`).
- **Default trackers.** When no tracker list was given, a fixed list of eleven
  names is used.
- **Allow-lists.** For each sibling and for the diagnostic logger, the plugin
  builds the list of prototype keys that do not start with `_` and whose value
  is a function. It adds `_sender` to the channel's list when `_sender` is
  tracked.
- **Routing.** Each tracker goes to one instrumentation target by a fixed
  priority, or is skipped. A routed tracker gets one instrumentation request
  and one debug bin at position `(index + 1) * 50`.
- **Pre-call observer.** Each call counts one in the tracker's bin.
- **Processing.** Each telemetry item is forwarded once to the next plugin.

The plugin is a class (`Plugin.DebugPlugin`) whose fields are the ones the
source assigns: the four slots, `trackers` and `debugBins`. Instrumentation
requests and forwarded items are foreign effects, so they are recorded in two
ghost logs (`instrumented`, `forwarded`). Each loop of the source is a
`for` loop proved against a specification function: `LastWithId` for discovery,
`AllowList` for the allow-lists, `Hooks` and `Bins` for routing. The
properties are then proved about those functions.

Files: `extensions.dfy` (siblings, slots, discovery), `allow_lists.dfy`,
`routing.dfy` (targets, hooks, bins), `debug_plugin.dfy` (the class).

Two behaviours of the code shape the model:

- Discovery overwrites a slot on every match, so the LAST sibling with an
  identifier wins.
- The allow-list loop reads `__proto__` of every slot, so a missing sibling
  makes initialization fail. The model returns `MissingSibling(slot)` for the
  first unbound slot, in the order analytics, properties, ajax, channel. At
  that point the slots and trackers are set, `debugBins` is empty and no hook
  has been requested.

## Model

| member | source | states |
|---|---|---|
| `Extensions.LastWithId` | extensions/applicationinsights-debugplugin-js/src/DebugPlugin.ts:90-103 | a bound slot holds an extension from the list that carries the slot's identifier; it stays unbound exactly when no extension carries it |
| `Extensions.LastWithIdIsLastMatch` | extensions/applicationinsights-debugplugin-js/src/DebugPlugin.ts:90-103 | the slot holds the extension at index k whenever k matches and no later index matches: last match wins |
| `Extensions.SlotIdInjective` | extensions/applicationinsights-debugplugin-js/src/DebugPlugin.ts:91-100 | the four slot identifiers are pairwise distinct |
| `Extensions.AtMostOneSlot` | extensions/applicationinsights-debugplugin-js/src/DebugPlugin.ts:90-103 | no extension is bound to two different slots |
| `Plugin.DebugPlugin.DiscoverSiblings` | extensions/applicationinsights-debugplugin-js/src/DebugPlugin.ts:90-103 | after the scan each slot is the last matching extension, or its previous value when none matches |
| `AllowLists.PublicFunctions` | extensions/applicationinsights-debugplugin-js/src/DebugPlugin.ts:142-147 | every kept name is a prototype key that does not start with `_` and is a function; every such key is kept |
| `AllowLists.PublicFunctionsAppend` | extensions/applicationinsights-debugplugin-js/src/DebugPlugin.ts:142-147 | filtering keeps key order: filtering a concatenation is the concatenation of the filtered parts |
| `AllowLists.AllowList` | extensions/applicationinsights-debugplugin-js/src/DebugPlugin.ts:142-151 | every name other than `_sender` comes from an exposed key; every exposed key is listed; `_sender` is listed exactly when the identifier is the channel's and `_sender` is tracked |
| `AllowLists.CollectProtoFns` | extensions/applicationinsights-debugplugin-js/src/DebugPlugin.ts:142-151 | the key loop with the underscore skip and the sender case builds exactly the allow-list |
| `Routing.Route` | extensions/applicationinsights-debugplugin-js/src/DebugPlugin.ts:157-164 | a routed tracker goes to an accepting target of lowest priority (properties, analytics, ajax, logger, channel instance for `_sender`, channel prototype); no target accepts a skipped tracker |
| `Routing.RankInjective` | extensions/applicationinsights-debugplugin-js/src/DebugPlugin.ts:157-164 | priorities are distinct, so the routed target is unique |
| `Routing.Hooks` | extensions/applicationinsights-debugplugin-js/src/DebugPlugin.ts:154-168 | every instrumentation request names a listed tracker and the target it routes to |
| `Routing.HookPerRoutedOccurrence` | extensions/applicationinsights-debugplugin-js/src/DebugPlugin.ts:154-168 | a routed tracker gets one request per occurrence in the list; a skipped tracker gets none |
| `Routing.HooksAppend` | extensions/applicationinsights-debugplugin-js/src/DebugPlugin.ts:154-168 | requests are issued in tracker order |
| `Routing.BinsCharacterized` | extensions/applicationinsights-debugplugin-js/src/DebugPlugin.ts:154-171 | a bin exists exactly for each routed tracker; it has its tracker's name, count 0, and position (k + 1) * 50 for the last index k of that tracker, skipped entries counted |
| `Routing.BinsMatchHooks` | extensions/applicationinsights-debugplugin-js/src/DebugPlugin.ts:154-171 | the bins are keyed by exactly the trackers that received an instrumentation request |
| `Plugin.DebugPlugin.InstrumentTrackers` | extensions/applicationinsights-debugplugin-js/src/DebugPlugin.ts:154-172 | starting from no bins, the loop leaves exactly the specified bins and appends exactly the specified requests |
| `Plugin.FirstUnbound` | extensions/applicationinsights-debugplugin-js/src/DebugPlugin.ts:135-142 | the failing slot is the first unbound one in allow-list order; there is none exactly when all four slots are bound |
| `Plugin.SenderGoesToChannelInstance` | extensions/applicationinsights-debugplugin-js/src/DebugPlugin.ts:149-162 | `_sender` is on no list but the channel's, is on it exactly when tracked, and always routes to the channel instance |
| `Plugin.DebugPlugin.constructor` | extensions/applicationinsights-debugplugin-js/src/DebugPlugin.ts:75-80 | keeps the supplied trackers; no slot bound, no bin, no request, nothing forwarded |
| `Plugin.DebugPlugin.Initialize` | extensions/applicationinsights-debugplugin-js/src/DebugPlugin.ts:82-172 | slots as discovered; missing trackers become the eleven defaults and a supplied list (even empty) is kept; fails on the first unbound sibling with no bins and no requests; otherwise bins and requests are those of routing over the built allow-lists; nothing is forwarded |
| `Plugin.PreProcessed` | extensions/applicationinsights-debugplugin-js/src/DebugPlugin.ts:231-233 | one observer call adds one to the count of the tracker's bin, or of the `default` bin when the tracker has none; other bins, names and positions are unchanged; it fails when neither bin exists |
| `Plugin.FirstCallCountsOnce` | extensions/applicationinsights-debugplugin-js/src/DebugPlugin.ts:231-233 | after initialization, the first call of a hooked tracker's observer counts 1 in that tracker's own bin |
| `Plugin.DebugPlugin.PreProcessItem` | extensions/applicationinsights-debugplugin-js/src/DebugPlugin.ts:231-238 | the bins become those of one observer call, and stay unchanged when the call fails |
| `Plugin.DebugPlugin.ProcessTelemetry` | extensions/applicationinsights-debugplugin-js/src/DebugPlugin.ts:247-251 | the item is appended, unchanged, exactly once to the items handed to the next plugin |

## Left out

- The DOM and UI work: the bin container and root element, the style elements, the `d` key toggle, the logger element, the first log entry, and rendering each bin. None of it affects the modelled state.
- `postProcessItem` and the logging in `preProcessItem` and `processTelemetry`: they only write to the console or the logger element, with labels built from a clock read and a floating-point division.
- `InstrumentFunc` and `processNext` come from the core package, which is not part of this model. Each is recorded as an opaque effect in a ghost log (`instrumented`, `forwarded`). The method wrapping done inside `InstrumentFunc` and the plugin chain behind `processNext` are not modelled.
- `super.initialize` and `diagLog()` come from the base plugin class, which is not part of this model. The diagnostic logger's prototype keys are a parameter of `Initialize`, and the logger has no identifier.
- Prototype reflection (`__proto__`, `objKeys`, `isTypeof`) is replaced by an explicit key list per extension. Each key carries a flag saying whether the value read through the extension under that key (normally the inherited prototype method) is a function.
- The outer loop over the five pairs of extension and list (lines 135-141) is written as five calls in the same order. The first unbound sibling fails the same way.
- `debugBins` is undefined until `initialize` runs. The model starts it as an empty map. In both cases the observer fails before initialization.
- The `config`, `core` and `pluginChain` arguments of `initialize` and the `itemCtx` argument of `processTelemetry` are passed on to foreign code or only logged, so they are not modelled.
- `Plugin.PreProcessed`: `debugBins` is a plain object in the source, so the lookup `debugBins[itemType] || debugBins.default` also finds inherited members such as `toString`; the model's map finds only bins. The two differ only when a hooked tracker name is an inherited member name that has no bin, which needs a re-initialization that no longer routes it: the source then throws on `.increment()` where the model counts into `default` (or fails when there is no `default` bin).
- `Plugin.DebugPlugin.Initialize`: the bin positions are kept as unbounded integers, without JavaScript's floating-point number representation. No realistic tracker count comes near the difference.
- The React Native test harness and the Angular rollup configuration: the first tests a plugin whose source is not part of this model, and the second is build configuration.
