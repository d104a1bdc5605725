/**
 * The values exchanged with the Kiloview switcher: stream descriptors as the
 * device lists them, the replies the bridge receives, and the requests it
 * issues. A request is recorded as a `Call` in the bridge's trace; the HTTP
 * transport itself is not modelled.
 */
module Device {

  datatype Option<T> = None | Some(value: T)

  /** A JSON value as it may appear in a stream's `enable` field. */
  datatype Json = JNumber(n: int) | JBool(b: bool) | JString(s: string) | JNull

  /** One source stream as the device reports it in the group listing. */
  datatype Stream = Stream(id: string, name: string, url: string, enable: Json)

  /** A source group of the device; only its streams are used. */
  datatype Group = Group(streams: seq<Stream>)

  /** The value of the `app` header on the login request. */
  const LoginApp: string := "test"
  /** The single output the bridge drives. */
  const OutputId: string := "1"
  /** The single position on that output. */
  const PosId: int := 1

  /** One side (`from` or `to`) of a preview-modify request body. */
  datatype PreviewSide = PreviewSide(
    kind: string,
    streamId: string,
    streamName: string,
    streamUrl: string,
    posId: Option<string>,  // present on the `from` side only
    outputId: string,
    layoutId: string)

  /** One side (`from` or `to`) of an output-set request body. */
  datatype OutputSide = OutputSide(outputId: string, posId: int, streamId: Option<string>)

  /**
   * A request issued to the device. `app` is the value of the `app` header:
   * the constant "test" on login, the current access token on every other call.
   */
  datatype Call =
    | Login(app: string, username: string, password: string)
    | ListGroups(app: string, isNeedStream: bool)
    | ModifyPreview(app: string, from: PreviewSide, to: PreviewSide)
    | SetOutput(app: string, fromSlot: OutputSide, toSlot: OutputSide)

  /** The device's answer to a login request. */
  datatype LoginReply = Granted(token: string) | LoginRejected

  /** The device's answer to a group-listing request. */
  datatype ListReply = Listed(groups: seq<Group>) | ListRejected

  /** The request that stages `s` as the preview of output 1. */
  function PreviewRequest(token: string, s: Stream): Call {
    ModifyPreview(token,
      PreviewSide("source", s.id, s.name, s.url, Some(""), OutputId, ""),
      PreviewSide("preview", s.id, s.name, s.url, None, OutputId, ""))
  }

  /** The request that puts stream `s` on output 1, position 1. */
  function OutputRequest(token: string, s: Stream): Call {
    SetOutput(token, OutputSide(OutputId, PosId, None), OutputSide(OutputId, PosId, Some(s.id)))
  }

  /**
   * The preview request carries the token, names `s` (id, name and url) on
   * both sides, goes from type "source" to type "preview", and targets output 1.
   */
  lemma PreviewRequestShape(token: string, s: Stream)
    ensures var c := PreviewRequest(token, s);
      && c.ModifyPreview? && c.app == token
      && c.from.kind == "source" && c.to.kind == "preview"
      && c.from.streamId == s.id && c.to.streamId == s.id
      && c.from.streamName == s.name && c.to.streamName == s.name
      && c.from.streamUrl == s.url && c.to.streamUrl == s.url
      && c.from.outputId == OutputId && c.to.outputId == OutputId
      && c.from.posId == Some("") && c.to.posId == None
      && c.from.layoutId == "" && c.to.layoutId == ""
  {
  }

  /** The output request carries the token and moves `s` onto output 1, position 1. */
  lemma OutputRequestShape(token: string, s: Stream)
    ensures var c := OutputRequest(token, s);
      && c.SetOutput? && c.app == token
      && c.fromSlot == OutputSide(OutputId, PosId, None)
      && c.toSlot == OutputSide(OutputId, PosId, Some(s.id))
  {
  }

  /** The stream id a preview or output call designates as its target. */
  function TargetId(c: Call): (r: Option<string>)
    ensures c.Login? || c.ListGroups? ==> r == None
  {
    match c
    case ModifyPreview(_, _, to) => Some(to.streamId)
    case SetOutput(_, _, to) => to.streamId
    case _ => None
  }

  /** Both calls of a switch name the same stream, and they are distinct calls. */
  lemma SwitchCallsAgree(token: string, s: Stream)
    ensures TargetId(PreviewRequest(token, s)) == TargetId(OutputRequest(token, s)) == Some(s.id)
    ensures PreviewRequest(token, s) != OutputRequest(token, s)
  {
  }

  /**
   * The preview calls for the streams `ss`: one per stream, in the same
   * order, each carrying `token` and naming its stream.
   */
  function Previews(token: string, ss: seq<Stream>): (r: seq<Call>)
    ensures |r| == |ss|
    ensures forall k :: 0 <= k < |r| ==> r[k].ModifyPreview? && r[k].app == token && TargetId(r[k]) == Some(ss[k].id)
  {
    seq(|ss|, k requires 0 <= k < |ss| => PreviewRequest(token, ss[k]))
  }

  /** One more stream adds its preview call at the end. */
  lemma PreviewsSnoc(token: string, ss: seq<Stream>, s: Stream)
    ensures Previews(token, ss + [s]) == Previews(token, ss) + [PreviewRequest(token, s)]
  {
    var l := ss + [s];
    assert forall k :: 0 <= k < |ss| ==> l[k] == ss[k];
  }
}
