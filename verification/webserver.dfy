/**
 The `/data` endpoint of the dashboard web server (`handleData`): it samples the clock once,
 recomputes the three node-connectivity flags into the shared globals, and answers with a
 flat JSON snapshot of the latest readings.
 */
module WebServer {
  import opened Wrappers
  import opened Clock
  import opened Staleness
  import opened Values
  import opened Json

  /** The three bus nodes tracked for liveness. */
  datatype NodeId = Node1 | Node2 | Node3

  /**
   The shared state `handleData` reads and writes: the `web*` readings published by the bus
   tasks, each node's last message time, and the connectivity flags.
   */
  datatype Globals = Globals(
    webTemp: Float32,
    webWaterEmpty: bool,
    webDoorOpen: bool,
    webLatitude: Float32,
    webLongitude: Float32,
    webLoad: Float32,
    lastNode1MsgTime: U32,
    lastNode2MsgTime: U32,
    lastNode3MsgTime: U32,
    node1Connected: bool,
    node2Connected: bool,
    node3Connected: bool)

  function LastMsgTime(g: Globals, n: NodeId): U32 {
    match n
    case Node1 => g.lastNode1MsgTime
    case Node2 => g.lastNode2MsgTime
    case Node3 => g.lastNode3MsgTime
  }

  function ConnectedFlag(g: Globals, n: NodeId): bool {
    match n
    case Node1 => g.node1Connected
    case Node2 => g.node2Connected
    case Node3 => g.node3Connected
  }

  /** An HTTP answer as handed to the server: status code, content type, body. */
  datatype Response = Response(status: int, contentType: string, body: string)

  /** What one request leaves behind: the updated globals and the response sent. */
  datatype DataReply = DataReply(globals: Globals, response: Response)

  const TempDigits: nat := 1
  const CoordinateDigits: nat := 6
  const LoadDigits: nat := 2

  /** The keys of the snapshot object, in the order they are written. */
  const DataKeys: seq<string> := [
    "temp", "oilFull", "doorOpen", "lat", "lon", "load",
    "node1Connected", "node2Connected", "node3Connected"]

  /**
   The response body, assembled piece by piece as the handler does: each `+` associates to the
   left, so the string is one long left-nested concatenation. The lemmas below re-associate it,
   member by member, into the comma-joined nesting of `RenderMembers`.
   */
  function DataBody(g: Globals, fmt: Formatter): string {
    "{"
    + "\"temp\":" + fmt(g.webTemp, TempDigits) + ","
    + "\"oilFull\":" + (if g.webWaterEmpty then "false" else "true") + ","
    + "\"doorOpen\":" + (if g.webDoorOpen then "true" else "false") + ","
    + "\"lat\":" + fmt(g.webLatitude, CoordinateDigits) + ","
    + "\"lon\":" + fmt(g.webLongitude, CoordinateDigits) + ","
    + "\"load\":" + fmt(g.webLoad, LoadDigits) + ","
    + "\"node1Connected\":" + (if g.node1Connected then "true" else "false") + ","
    + "\"node2Connected\":" + (if g.node2Connected then "true" else "false") + ","
    + "\"node3Connected\":" + (if g.node3Connected then "true" else "false")
    + "}"
  }

  /** The snapshot as a member list: the reference the body is checked against. */
  function DataMembers(g: Globals, fmt: Formatter): (ms: seq<Member>)
    ensures Keys(ms) == DataKeys
    ensures DistinctKeys(ms)
  {
    [ Member("temp", fmt(g.webTemp, TempDigits)),
      Member("oilFull", BoolToken(!g.webWaterEmpty)),
      Member("doorOpen", BoolToken(g.webDoorOpen)),
      Member("lat", fmt(g.webLatitude, CoordinateDigits)),
      Member("lon", fmt(g.webLongitude, CoordinateDigits)),
      Member("load", fmt(g.webLoad, LoadDigits)),
      Member("node1Connected", BoolToken(g.node1Connected)),
      Member("node2Connected", BoolToken(g.node2Connected)),
      Member("node3Connected", BoolToken(g.node3Connected)) ]
  }

  /** The hand-assembled body is the generic rendering of the member list. */
  lemma DataBodyIsRendered(g: Globals, fmt: Formatter)
    ensures DataBody(g, fmt) == Render(DataMembers(g, fmt))
  {
    var ms := DataMembers(g, fmt);
    RenderNine(ms);
    BodyNested(g, fmt);
  }

  lemma RenderNine(ms: seq<Member>)
    requires |ms| == 9
    ensures RenderMembers(ms) == RenderMember(ms[0]) + "," + (RenderMember(ms[1]) + "," + (RenderMember(ms[2]) + "," + (RenderMember(ms[3]) + "," + (RenderMember(ms[4]) + ","
      + (RenderMember(ms[5]) + "," + (RenderMember(ms[6]) + "," + (RenderMember(ms[7]) + "," + RenderMember(ms[8]))))))))
  {
    assert ms[8..] == [ms[8]];
    RenderMembersStep(ms, 7);
    RenderMembersStep(ms, 6);
    RenderMembersStep(ms, 5);
    RenderMembersStep(ms, 4);
    RenderMembersStep(ms, 3);
    RenderMembersStep(ms, 2);
    RenderMembersStep(ms, 1);
    RenderMembersStep(ms, 0);
    assert ms[0..] == ms;
  }

  /** The body with the nine rendered members nested as `RenderMembers` nests them. */
  lemma BodyNested(g: Globals, fmt: Formatter)
    ensures var ms := DataMembers(g, fmt);
      DataBody(g, fmt) == "{" + (RenderMember(ms[0]) + "," + (RenderMember(ms[1]) + "," + (RenderMember(ms[2]) + "," + (RenderMember(ms[3]) + "," + (RenderMember(ms[4]) + ","
      + (RenderMember(ms[5]) + "," + (RenderMember(ms[6]) + "," + (RenderMember(ms[7]) + "," + RenderMember(ms[8])))))))))  + "}"
  {
    var ms := DataMembers(g, fmt);
    var k := ["\"temp\":", "\"oilFull\":", "\"doorOpen\":", "\"lat\":", "\"lon\":", "\"load\":",
              "\"node1Connected\":", "\"node2Connected\":", "\"node3Connected\":"];
    var v := seq(9, i requires 0 <= i < 9 => ms[i].value);
    assert ms == [Member("temp", v[0]), Member("oilFull", v[1]), Member("doorOpen", v[2]), Member("lat", v[3]),
                  Member("lon", v[4]), Member("load", v[5]), Member("node1Connected", v[6]),
                  Member("node2Connected", v[7]), Member("node3Connected", v[8])];
    MemberPieces(v);
    BodyPieces(g, fmt);
    Flatten(k[0], v[0], k[1], v[1], k[2], v[2], k[3], v[3], k[4], v[4], k[5], v[5], k[6], v[6], k[7], v[7], k[8], v[8]);
  }

  /** Each member of the snapshot renders as its quoted-key literal followed by its value. */
  lemma MemberPieces(v: seq<string>)
    requires |v| == 9
    ensures && RenderMember(Member("temp", v[0])) == "\"temp\":" + v[0]
            && RenderMember(Member("oilFull", v[1])) == "\"oilFull\":" + v[1]
            && RenderMember(Member("doorOpen", v[2])) == "\"doorOpen\":" + v[2]
            && RenderMember(Member("lat", v[3])) == "\"lat\":" + v[3]
            && RenderMember(Member("lon", v[4])) == "\"lon\":" + v[4]
            && RenderMember(Member("load", v[5])) == "\"load\":" + v[5]
            && RenderMember(Member("node1Connected", v[6])) == "\"node1Connected\":" + v[6]
            && RenderMember(Member("node2Connected", v[7])) == "\"node2Connected\":" + v[7]
            && RenderMember(Member("node3Connected", v[8])) == "\"node3Connected\":" + v[8]
  {
    KeyPiece("temp", "\"temp\":", v[0]);
    KeyPiece("oilFull", "\"oilFull\":", v[1]);
    KeyPiece("doorOpen", "\"doorOpen\":", v[2]);
    KeyPiece("lat", "\"lat\":", v[3]);
    KeyPiece("lon", "\"lon\":", v[4]);
    KeyPiece("load", "\"load\":", v[5]);
    KeyPiece("node1Connected", "\"node1Connected\":", v[6]);
    KeyPiece("node2Connected", "\"node2Connected\":", v[7]);
    KeyPiece("node3Connected", "\"node3Connected\":", v[8]);
  }

  lemma KeyPiece(key: string, literal: string, v: string)
    requires literal == "\"" + key + "\":"
    ensures RenderMember(Member(key, v)) == literal + v
  {
  }

  lemma BodyPieces(g: Globals, fmt: Formatter)
    ensures var ms := DataMembers(g, fmt);
      DataBody(g, fmt) == "{" + "\"temp\":" + ms[0].value + "," + "\"oilFull\":" + ms[1].value + ","
        + "\"doorOpen\":" + ms[2].value + "," + "\"lat\":" + ms[3].value + "," + "\"lon\":" + ms[4].value + ","
        + "\"load\":" + ms[5].value + "," + "\"node1Connected\":" + ms[6].value + ","
        + "\"node2Connected\":" + ms[7].value + "," + "\"node3Connected\":" + ms[8].value + "}"
  {
  }

  /** Re-associates the nine `key` + `value` pieces of the body. */
  lemma Flatten(k0: string, v0: string, k1: string, v1: string, k2: string, v2: string, k3: string, v3: string,
                k4: string, v4: string, k5: string, v5: string, k6: string, v6: string, k7: string, v7: string,
                k8: string, v8: string)
    ensures "{" + k0 + v0 + "," + k1 + v1 + "," + k2 + v2 + "," + k3 + v3 + "," + k4 + v4 + "," + k5 + v5 + ","
              + k6 + v6 + "," + k7 + v7 + "," + k8 + v8 + "}"
         == "{" + ((k0 + v0) + "," + ((k1 + v1) + "," + ((k2 + v2) + "," + ((k3 + v3) + "," + ((k4 + v4) + ","
              + ((k5 + v5) + "," + ((k6 + v6) + "," + ((k7 + v7) + "," + (k8 + v8))))))))) + "}"
  {
    var t8 := k8 + v8;
    var t7 := (k7 + v7) + "," + t8;
    var t6 := (k6 + v6) + "," + t7;
    var t5 := (k5 + v5) + "," + t6;
    var t4 := (k4 + v4) + "," + t5;
    var t3 := (k3 + v3) + "," + t4;
    var t2 := (k2 + v2) + "," + t3;
    var t1 := (k1 + v1) + "," + t2;
    var t0 := (k0 + v0) + "," + t1;
    var a1 := "{" + k0 + v0 + ",";
    var a2 := a1 + k1 + v1 + ",";
    var a3 := a2 + k2 + v2 + ",";
    var a4 := a3 + k3 + v3 + ",";
    var a5 := a4 + k4 + v4 + ",";
    var a6 := a5 + k5 + v5 + ",";
    var a7 := a6 + k6 + v6 + ",";
    var a8 := a7 + k7 + v7 + ",";
    ReassociateStep("{", k0, v0, t1);
    ReassociateStep(a1, k1, v1, t2);
    ReassociateStep(a2, k2, v2, t3);
    ReassociateStep(a3, k3, v3, t4);
    ReassociateStep(a4, k4, v4, t5);
    ReassociateStep(a5, k5, v5, t6);
    ReassociateStep(a6, k6, v6, t7);
    ReassociateStep(a7, k7, v7, t8);
    assert a8 + (k8 + v8) == a8 + k8 + v8;
    assert "{" + t0 == a8 + t8;
    assert ("{" + t0) + "}" == "{" + t0 + "}";
  }

  /** One step of that re-association. */
  lemma ReassociateStep(a: string, k: string, v: string, t: string)
    ensures a + ((k + v) + "," + t) == a + k + v + "," + t
  {
  }

  /**
   The liveness refresh at the top of `handleData`: every flag is recomputed from the one
   clock sample `now`, and nothing but the three flags changes.
   */
  function RefreshFlags(g: Globals, now: U32, timeout: U32): (g': Globals)
    ensures forall n: NodeId :: ConnectedFlag(g', n) <==> Elapsed(now, LastMsgTime(g, n)) < timeout
    ensures g'.(node1Connected := g.node1Connected,
                node2Connected := g.node2Connected,
                node3Connected := g.node3Connected) == g
  {
    g.(node1Connected := IsConnected(now, g.lastNode1MsgTime, timeout),
       node2Connected := IsConnected(now, g.lastNode2MsgTime, timeout),
       node3Connected := IsConnected(now, g.lastNode3MsgTime, timeout))
  }

  /**
   `handleData`: the flags are refreshed into the globals first; the body is then serialized
   from the updated globals and sent once as a 200 `application/json` response.
   */
  function HandleData(g: Globals, now: U32, timeout: U32, fmt: Formatter): (reply: DataReply)
    ensures reply.response.status == 200
    ensures reply.response.contentType == "application/json"
    ensures forall n: NodeId :: ConnectedFlag(reply.globals, n) <==> Elapsed(now, LastMsgTime(g, n)) < timeout
    ensures reply.globals.(node1Connected := g.node1Connected,
                           node2Connected := g.node2Connected,
                           node3Connected := g.node3Connected) == g
    ensures reply.response.body == Render(DataMembers(reply.globals, fmt))
  {
    var g' := RefreshFlags(g, now, timeout);
    DataBodyIsRendered(g', fmt);
    DataReply(g', Response(200, "application/json", DataBody(g', fmt)))
  }

  /** The numeric renderings contain no comma, so the flat object stays readable. */
  predicate NumbersRepresentable(g: Globals, fmt: Formatter) {
    && ',' !in fmt(g.webTemp, TempDigits)
    && ',' !in fmt(g.webLatitude, CoordinateDigits)
    && ',' !in fmt(g.webLongitude, CoordinateDigits)
    && ',' !in fmt(g.webLoad, LoadDigits)
  }

  /**
   The wire contract of `/data`: the body parses as an object with exactly the nine keys in
   order; the numbers carry their fixed precisions; the booleans are bare tokens, `oilFull`
   the negation of the water-empty reading and each `nodeNConnected` the staleness verdict.
   */
  lemma DataResponseDecodes(g: Globals, now: U32, timeout: U32, fmt: Formatter)
    requires NumbersRepresentable(g, fmt)
    ensures var ms := Parse(HandleData(g, now, timeout, fmt).response.body);
            && ms.Some?
            && Keys(ms.value) == DataKeys
            && Lookup(ms.value, "temp") == Some(fmt(g.webTemp, TempDigits))
            && Lookup(ms.value, "lat") == Some(fmt(g.webLatitude, CoordinateDigits))
            && Lookup(ms.value, "lon") == Some(fmt(g.webLongitude, CoordinateDigits))
            && Lookup(ms.value, "load") == Some(fmt(g.webLoad, LoadDigits))
            && LookupBool(ms.value, "oilFull") == Some(!g.webWaterEmpty)
            && LookupBool(ms.value, "doorOpen") == Some(g.webDoorOpen)
            && LookupBool(ms.value, "node1Connected") == Some(IsConnected(now, g.lastNode1MsgTime, timeout))
            && LookupBool(ms.value, "node2Connected") == Some(IsConnected(now, g.lastNode2MsgTime, timeout))
            && LookupBool(ms.value, "node3Connected") == Some(IsConnected(now, g.lastNode3MsgTime, timeout))
  {
    var reply := HandleData(g, now, timeout, fmt);
    var ms := DataMembers(reply.globals, fmt);
    MembersRepresentable(reply.globals, fmt);
    RenderParseRoundTrip(ms);
    MembersReadBack(reply.globals, fmt);
  }

  lemma MembersRepresentable(g: Globals, fmt: Formatter)
    requires NumbersRepresentable(g, fmt)
    ensures forall i :: 0 <= i < |DataMembers(g, fmt)| ==> Representable(DataMembers(g, fmt)[i])
  {
    var ms := DataMembers(g, fmt);
    KeysPlain();
    forall i | 0 <= i < |ms|
      ensures Representable(ms[i])
    {
      assert ms[i].key == DataKeys[i];
    }
  }

  /** The fixed keys need no escaping and contain no separator. */
  lemma KeysPlain()
    ensures forall i :: 0 <= i < |DataKeys| ==> '"' !in DataKeys[i] && ',' !in DataKeys[i]
  {
    assert forall i :: 0 <= i < |DataKeys| ==> forall c :: c in DataKeys[i] ==> 'a' <= c <= 'z' || 'A' <= c <= 'Z' || '1' <= c <= '3';
  }

  /** Every member of the snapshot list is found again by its key. */
  lemma MembersReadBack(g: Globals, fmt: Formatter)
    ensures var ms := DataMembers(g, fmt);
            && Lookup(ms, "temp") == Some(fmt(g.webTemp, TempDigits))
            && Lookup(ms, "lat") == Some(fmt(g.webLatitude, CoordinateDigits))
            && Lookup(ms, "lon") == Some(fmt(g.webLongitude, CoordinateDigits))
            && Lookup(ms, "load") == Some(fmt(g.webLoad, LoadDigits))
            && LookupBool(ms, "oilFull") == Some(!g.webWaterEmpty)
            && LookupBool(ms, "doorOpen") == Some(g.webDoorOpen)
            && LookupBool(ms, "node1Connected") == Some(g.node1Connected)
            && LookupBool(ms, "node2Connected") == Some(g.node2Connected)
            && LookupBool(ms, "node3Connected") == Some(g.node3Connected)
  {
    MemberReadBack(g, fmt, 0);
    MemberReadBack(g, fmt, 1);
    MemberReadBack(g, fmt, 2);
    MemberReadBack(g, fmt, 3);
    MemberReadBack(g, fmt, 4);
    MemberReadBack(g, fmt, 5);
    MemberReadBack(g, fmt, 6);
    MemberReadBack(g, fmt, 7);
    MemberReadBack(g, fmt, 8);
  }

  lemma MemberReadBack(g: Globals, fmt: Formatter, i: nat)
    requires i < |DataKeys|
    ensures Lookup(DataMembers(g, fmt), DataKeys[i]) == Some(DataMembers(g, fmt)[i].value)
  {
    LookupDistinct(DataMembers(g, fmt), i);
  }

  /**
   Connectivity is coherent within one response: since every flag comes from the same `now`,
   a node heard from more recently than a connected node is connected too.
   */
  lemma FlagsShareOneSample(g: Globals, now: U32, timeout: U32, a: NodeId, b: NodeId)
    requires Elapsed(now, LastMsgTime(g, a)) <= Elapsed(now, LastMsgTime(g, b))
    ensures var g' := RefreshFlags(g, now, timeout);
            ConnectedFlag(g', b) ==> ConnectedFlag(g', a)
  {
  }

  /**
   Stale data is still served: a node reported connected one tick before the timeout and
   disconnected at the timeout, while the six sensor members of the body (rendered from the
   refreshed globals, see `HandleData`) are unchanged.
   */
  lemma StaleReadingsStillServed(g: Globals, n: NodeId, timeout: U32, fmt: Formatter)
    requires 0 < timeout
    ensures var last := LastMsgTime(g, n);
            var before := RefreshFlags(g, Advance(last, timeout - 1), timeout);
            var after := RefreshFlags(g, Advance(last, timeout), timeout);
            && ConnectedFlag(before, n)
            && !ConnectedFlag(after, n)
            && DataMembers(before, fmt)[..6] == DataMembers(after, fmt)[..6]
  {
    var last := LastMsgTime(g, n);
    TimeoutBoundary(last, timeout);
    SensorMembersIgnoreFlags(RefreshFlags(g, Advance(last, timeout - 1), timeout),
                             RefreshFlags(g, Advance(last, timeout), timeout), fmt);
  }

  /** The six sensor members depend on the readings only, never on the flags. */
  lemma SensorMembersIgnoreFlags(a: Globals, b: Globals, fmt: Formatter)
    requires a.(node1Connected := b.node1Connected, node2Connected := b.node2Connected,
                node3Connected := b.node3Connected) == b
    ensures DataMembers(a, fmt)[..6] == DataMembers(b, fmt)[..6]
  {
  }
}
