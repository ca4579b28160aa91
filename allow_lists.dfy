/**
 * The per-sibling allow-lists: the public callable member names of an
 * extension's prototype, plus the `_sender` special case for the channel.
 */
module AllowLists {
  import opened Extensions

  /** The channel's sender, the only underscore name ever allowed. */
  const SenderName: string := "_sender"

  /** A key whose first character is an underscore. */
  predicate IsPrivate(name: string) {
    |name| > 0 && name[0] == '_'
  }

  /** A prototype key that goes on an allow-list: public and callable. */
  predicate Exposed(m: Member) {
    !IsPrivate(m.name) && m.isFunction
  }

  /**
   * The names of the exposed members, in key order. Exactly the exposed
   * names appear, and every one is public.
   */
  function PublicFunctions(members: seq<Member>): (r: seq<string>)
    ensures |r| <= |members|
    ensures forall n :: n in r ==> !IsPrivate(n) && exists m :: m in members && Exposed(m) && m.name == n
    ensures forall m :: m in members && Exposed(m) ==> m.name in r
  {
    if |members| == 0 then []
    else
      var last := members[|members| - 1];
      PublicFunctions(members[..|members| - 1]) + (if Exposed(last) then [last.name] else [])
  }

  /** Filtering keeps key order: the names from `a` come before those from `b`. */
  lemma {:induction false} PublicFunctionsAppend(a: seq<Member>, b: seq<Member>)
    ensures PublicFunctions(a + b) == PublicFunctions(a) + PublicFunctions(b)
    decreases |b|
  {
    if |b| == 0 {
      assert a + b == a;
    } else {
      var b' := b[..|b| - 1];
      assert (a + b)[..|a + b| - 1] == a + b';
      assert (a + b)[|a + b| - 1] == b[|b| - 1];
      PublicFunctionsAppend(a, b');
    }
  }

  /**
   * The allow-list built for a sibling with the given identifier (None for
   * the diagnostic logger, which has none): its exposed prototype names, then
   * `_sender` when the sibling is the channel and `_sender` is tracked.
   */
  function AllowList(identifier: Option<string>, members: seq<Member>, trackers: seq<string>): (r: seq<string>)
    ensures forall n :: n in r && n != SenderName ==> exists m :: m in members && Exposed(m) && m.name == n
    ensures forall m :: m in members && Exposed(m) ==> m.name in r
    ensures SenderName in r <==> identifier == Some(ChannelId) && SenderName in trackers
  {
    PublicFunctions(members) + (if identifier == Some(ChannelId) && SenderName in trackers then [SenderName] else [])
  }

  /**
   * The inner loop of the allow-list construction: walks the prototype keys,
   * skips underscore names, keeps callable ones, then applies the sender
   * special case.
   */
  method CollectProtoFns(identifier: Option<string>, members: seq<Member>, trackers: seq<string>)
    returns (protoFns: seq<string>)
    ensures protoFns == AllowList(identifier, members, trackers)
  {
    protoFns := [];
    for k := 0 to |members|
      invariant protoFns == PublicFunctions(members[..k])
    {
      assert members[..k + 1][..k] == members[..k];
      var key := members[k];
      if IsPrivate(key.name) {
        continue;
      }
      if key.isFunction {
        protoFns := protoFns + [key.name];
      }
    }
    assert members[..|members|] == members;
    if identifier == Some(ChannelId) && SenderName in trackers {
      protoFns := protoFns + [SenderName];
    }
  }
}
