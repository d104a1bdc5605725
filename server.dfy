/**
 * The bridge between OSC "set input" messages and the Kiloview switcher.
 * Its module-level state (the access token, the stream list and the index
 * map) becomes the fields of one `Bridge` object; every request it sends to
 * the device is appended to `trace`, and the device's answer to each request
 * is an argument of the method that sends it.
 */
module Server {
  import opened Device
  import opened Osc
  import opened Registry

  /** How one switch request ends. All four are handled; none escapes. */
  datatype SwitchOutcome = UnknownIndex | PreviewFailed | OutputFailed | Switched

  /** How the startup sequence ends. */
  datatype StartupOutcome = AuthFailed | ListingFailed | WarmupFailed(at: nat) | Started

  class Bridge {
    /** Configured device credentials. */
    const username: string
    const password: string

    var accessToken: string
    var streamList: seq<Stream>
    var streamMap: map<int, Stream>
    /** Every request issued to the device, oldest first. */
    var trace: seq<Call>

    /** Only indices 1..4 are ever bound, and only to enabled streams. */
    ghost predicate Valid()
      reads this`streamMap, this`streamList
    {
      WellBound(streamMap) && AllEnabled(streamList)
    }

    /** The state at process start: empty token, empty registry, no call made. */
    constructor (username: string, password: string)
      ensures Valid()
      ensures this.username == username && this.password == password
      ensures accessToken == "" && streamList == [] && streamMap == map[] && trace == []
    {
      this.username := username;
      this.password := password;
      accessToken := "";
      streamList := [];
      streamMap := map[];
      trace := [];
    }

    /**
     * Sends the login request (with `app: "test"`) and, when the device grants
     * a token, stores it. A rejected login leaves the old token in place.
     */
    method Login(reply: LoginReply) returns (ok: bool)
      modifies this`accessToken, this`trace
      ensures trace == old(trace) + [Call.Login(LoginApp, username, password)]
      ensures ok <==> reply.Granted?
      ensures accessToken == if reply.Granted? then reply.token else old(accessToken)
    {
      trace := trace + [Call.Login(LoginApp, username, password)];
      if reply.Granted? {
        accessToken := reply.token;
        ok := true;
      } else {
        ok := false;
      }
    }

    /**
     * Lists the source groups with the current token and, on success, binds
     * the first four enabled streams to the next indices from 1: each is
     * appended to `streamList` and stored in `streamMap`.
     */
    method GetSources(reply: ListReply) returns (sources: Option<seq<Group>>)
      requires Valid()
      modifies this`streamList, this`streamMap, this`trace
      ensures Valid()
      ensures trace == old(trace) + [ListGroups(accessToken, true)]
      ensures reply.ListRejected? ==>
        sources == None && streamList == old(streamList) && streamMap == old(streamMap)
      ensures reply.Listed? ==>
        && sources == Some(reply.groups)
        && streamList == old(streamList) + Registered(reply.groups)
        && streamMap == old(streamMap) + Bindings(Registered(reply.groups))
      ensures reply.Listed? && old(streamList) == [] && old(streamMap) == map[] ==>
        && |streamList| == RegistrySize(reply.groups)
        && (forall i :: i in streamMap <==> 1 <= i <= |streamList|)
        && (forall i :: 1 <= i <= |streamList| ==> streamMap[i] == streamList[i - 1])
    {
      trace := trace + [ListGroups(accessToken, true)];
      if reply.ListRejected? {
        return None;
      }
      var gs := reply.groups;
      var count := 1;
      ghost var seen: seq<Stream> := [];
      for gi := 0 to |gs|
        modifies this`streamList, this`streamMap
        invariant seen == Enabled(gs[..gi])
        invariant count == |Cap(seen, MaxInputs)| + 1
        invariant streamList == old(streamList) + Cap(seen, MaxInputs)
        invariant streamMap == old(streamMap) + Bindings(Cap(seen, MaxInputs))
      {
        var streams := gs[gi].streams;
        EnabledBeforeEnds(gs, gi);
        for si := 0 to |streams|
          modifies this`streamList, this`streamMap
          invariant seen == EnabledBefore(gs, gi, si)
          invariant count == |Cap(seen, MaxInputs)| + 1
          invariant streamList == old(streamList) + Cap(seen, MaxInputs)
          invariant streamMap == old(streamMap) + Bindings(Cap(seen, MaxInputs))
        {
          var s := streams[si];
          EnabledBeforeStep(gs, gi, si);
          if IsEnabled(s) {
            AdmitNext(old(streamList), old(streamMap), seen, s);
            if count <= MaxInputs {
              streamList := streamList + [s];
              streamMap := streamMap[count := s];
              count := count + 1;
            }
            seen := seen + [s];
          }
        }
      }
      assert gs[..|gs|] == gs;
      BuildKeepsWellBound(old(streamMap), old(streamList), gs);
      FreshBuildAgrees(gs);
      sources := Some(gs);
    }

    /** Stages `s` as both source and preview of output 1, with the current token. */
    method RegisterSourceForPreview(s: Stream, accepted: bool) returns (ok: bool)
      modifies this`trace
      ensures trace == old(trace) + [PreviewRequest(accessToken, s)]
      ensures ok == accepted
    {
      trace := trace + [PreviewRequest(accessToken, s)];
      ok := accepted;
    }

    /** Puts `s` on output 1, position 1, with the current token. */
    method SetOutput(s: Stream, accepted: bool) returns (ok: bool)
      modifies this`trace
      ensures trace == old(trace) + [OutputRequest(accessToken, s)]
      ensures ok == accepted
    {
      trace := trace + [OutputRequest(accessToken, s)];
      ok := accepted;
    }

    /**
     * Switches output 1 to the stream bound to `index`: an unbound index makes
     * no call; otherwise the preview call comes first, and the output call for
     * the same stream follows only if the preview call succeeded.
     */
    method SetOutputByNumber(index: int, previewAccepted: bool, outputAccepted: bool)
      returns (outcome: SwitchOutcome)
      requires Valid()
      modifies this`trace
      ensures trace == old(trace) + SwitchCalls(accessToken, streamMap, index, previewAccepted)
      ensures outcome == SwitchResult(streamMap, index, previewAccepted, outputAccepted)
      ensures index < 1 || index > MaxInputs ==> trace == old(trace)
    {
      if index !in streamMap {
        return UnknownIndex;
      }
      var s := streamMap[index];
      var ok := RegisterSourceForPreview(s, previewAccepted);
      if !ok {
        return PreviewFailed;
      }
      ok := SetOutput(s, outputAccepted);
      outcome := if ok then Switched else OutputFailed;
    }

    /**
     * Handles one OSC message: only `/kiloview/setInput/<digit>` triggers a
     * switch, for the index that digit denotes; any other address is ignored.
     */
    method HandleMessage(address: string, previewAccepted: bool, outputAccepted: bool)
      returns (handled: Option<SwitchOutcome>)
      requires Valid()
      modifies this`trace
      ensures ParseSetInput(address).None? ==> handled == None && trace == old(trace)
      ensures ParseSetInput(address).Some? ==>
        var i := ParseSetInput(address).value;
        && handled == Some(SwitchResult(streamMap, i, previewAccepted, outputAccepted))
        && trace == old(trace) + SwitchCalls(accessToken, streamMap, i, previewAccepted)
      ensures ParseSetInput(address).Some? && !(1 <= ParseSetInput(address).value <= MaxInputs) ==>
        trace == old(trace)
    {
      match ParseSetInput(address)
      case None =>
        handled := None;
      case Some(i) =>
        var outcome := SetOutputByNumber(i, previewAccepted, outputAccepted);
        handled := Some(outcome);
    }

    /**
     * The startup sequence: login, then list the sources (building the
     * registry), then stage every stream of every group as preview, in order,
     * whatever its `enable` flag. The k-th preview call is answered by
     * `previewAccepted(k)`. The first failure ends the sequence.
     */
    method Startup(loginReply: LoginReply, listReply: ListReply, previewAccepted: nat -> bool)
      returns (outcome: StartupOutcome)
      requires Valid()
      modifies this`accessToken, this`streamList, this`streamMap, this`trace
      ensures Valid()
      ensures loginReply.LoginRejected? ==>
        && outcome == AuthFailed
        && trace == old(trace) + [Call.Login(LoginApp, username, password)]
        && accessToken == old(accessToken)
        && streamList == old(streamList) && streamMap == old(streamMap)
      ensures loginReply.Granted? ==> accessToken == loginReply.token
      ensures loginReply.Granted? && listReply.ListRejected? ==>
        && outcome == ListingFailed
        && trace == old(trace) + [Call.Login(LoginApp, username, password), ListGroups(loginReply.token, true)]
        && streamList == old(streamList) && streamMap == old(streamMap)
      ensures loginReply.Granted? && listReply.Listed? ==>
        var gs := listReply.groups;
        var flat := Flatten(gs);
        var prefix := old(trace) + [Call.Login(LoginApp, username, password), ListGroups(loginReply.token, true)];
        && streamList == old(streamList) + Registered(gs)
        && streamMap == old(streamMap) + Bindings(Registered(gs))
        && (outcome == Started || outcome.WarmupFailed?)
        && (outcome == Started ==>
              && AcceptedBelow(previewAccepted, |flat|)
              && trace == prefix + Previews(loginReply.token, flat))
        && (outcome.WarmupFailed? ==>
              && outcome.at < |flat|
              && !previewAccepted(outcome.at)
              && AcceptedBelow(previewAccepted, outcome.at)
              && trace == prefix + Previews(loginReply.token, flat[..outcome.at + 1]))
    {
      var ok := Login(loginReply);
      if !ok {
        return AuthFailed;
      }
      ghost var afterLogin := trace;
      var sources := GetSources(listReply);
      assert trace == old(trace) + [Call.Login(LoginApp, username, password), ListGroups(accessToken, true)] by {
        assert afterLogin == old(trace) + [Call.Login(LoginApp, username, password)];
      }
      if sources.None? {
        return ListingFailed;
      }
      var gs := sources.value;
      var failedAt := WarmUpPreviews(gs, previewAccepted);
      outcome := if failedAt.Some? then WarmupFailed(failedAt.value) else Started;
    }

    /**
     * The preview loop of the startup sequence: every stream of every group,
     * in order, is staged as preview; the k-th call is answered by
     * `previewAccepted(k)` and the first rejection ends the loop.
     */
    method WarmUpPreviews(gs: seq<Group>, previewAccepted: nat -> bool) returns (failedAt: Option<nat>)
      modifies this`trace
      ensures failedAt.None? ==>
        && AcceptedBelow(previewAccepted, |Flatten(gs)|)
        && trace == old(trace) + Previews(accessToken, Flatten(gs))
      ensures failedAt.Some? ==>
        && failedAt.value < |Flatten(gs)|
        && !previewAccepted(failedAt.value)
        && AcceptedBelow(previewAccepted, failedAt.value)
        && trace == old(trace) + Previews(accessToken, Flatten(gs)[..failedAt.value + 1])
    {
      var calls: nat := 0;
      ghost var start := trace;
      ghost var token := accessToken;
      for gi := 0 to |gs|
        invariant calls == |Flatten(gs[..gi])|
        invariant AcceptedBelow(previewAccepted, calls)
        invariant accessToken == token
        invariant trace == start + Previews(token, Flatten(gs[..gi]))
      {
        var streams := gs[gi].streams;
        StreamsBeforeEnds(gs, gi);
        for si := 0 to |streams|
          invariant calls == |StreamsBefore(gs, gi, si)|
          invariant AcceptedBelow(previewAccepted, calls)
          invariant accessToken == token
          invariant trace == start + Previews(token, StreamsBefore(gs, gi, si))
        {
          StreamsBeforeStep(gs, gi, si);
          PreviewsSnoc(token, StreamsBefore(gs, gi, si), streams[si]);
          var ok := RegisterSourceForPreview(streams[si], previewAccepted(calls));
          if !ok {
            FlattenPrefix(gs, gi, si);
            return Some(calls);
          }
          calls := calls + 1;
        }
      }
      assert gs[..|gs|] == gs;
      failedAt := None;
    }
  }

  /** The first `n` calls were all accepted. */
  predicate AcceptedBelow(accepted: nat -> bool, n: nat) {
    forall k :: 0 <= k < n ==> accepted(k)
  }

  /**
   * The calls one switch request makes against the index map `m`: none for
   * an unbound index; otherwise the preview call for the bound stream and,
   * only if the device accepted it, the output call for the same stream.
   */
  function SwitchCalls(token: string, m: map<int, Stream>, index: int, previewAccepted: bool): (r: seq<Call>)
    ensures index !in m ==> r == []
    ensures WellBound(m) && (index < 1 || index > MaxInputs) ==> r == []
    ensures index in m ==>
      && |r| == (if previewAccepted then 2 else 1)
      && r[0].ModifyPreview?
      && (previewAccepted ==> r[1].SetOutput?)
      && forall k :: 0 <= k < |r| ==> r[k].app == token && TargetId(r[k]) == Some(m[index].id)
  {
    if index !in m then []
    else [PreviewRequest(token, m[index])] + (if previewAccepted then [OutputRequest(token, m[index])] else [])
  }

  /** How that switch request ends: the first failing step, or success. */
  function SwitchResult(m: map<int, Stream>, index: int, previewAccepted: bool, outputAccepted: bool): (r: SwitchOutcome)
    ensures r == UnknownIndex <==> index !in m
    ensures r == PreviewFailed <==> index in m && !previewAccepted
    ensures r == OutputFailed <==> index in m && previewAccepted && !outputAccepted
    ensures r == Switched <==> index in m && previewAccepted && outputAccepted
  {
    if index !in m then UnknownIndex
    else if !previewAccepted then PreviewFailed
    else if !outputAccepted then OutputFailed
    else Switched
  }
}
