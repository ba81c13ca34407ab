/**
 The payload and failure interceptors: which payloads are sealed, how a failure's text is
 moved into its encoded attributes so that it is sealed with them, and in what order the
 two interceptors are nested. The vault and codec are foreign; `Codec` carries them and
 `Lawful` states their contract.
 */
module Sealing {
  import opened Options

  datatype Payload = Payload(metadata: map<string, string>, data: string)

  function Meta(p: Payload, key: string): string {
    if key in p.metadata then p.metadata[key] else ""
  }

  datatype Codec = Codec(
    seal: Payload -> Payload,
    unseal: Payload -> Payload,
    sealedEncoding: string,
    render: (string, string) -> string,           // the JSON of a failure's message and stack trace
    parse: string -> Option<(string, string)>)

  const ENCODING := "encoding"
  const KEY_ID := "encryption-key-id"
  const DEK := "encrypted-dek"
  const MARKER := "s2s-proxy-encoded-failure"
  const JSON := "json/plain"
  const PLACEHOLDER := "Encoded failure"

  /** One of our sealed payloads: the encoding marker and the key material. */
  predicate IsSealed(c: Codec, p: Payload) {
    Meta(p, ENCODING) == c.sealedEncoding && |Meta(p, KEY_ID)| > 0 && |Meta(p, DEK)| > 0
  }

  ghost predicate Lawful(c: Codec) {
    && (forall p :: IsSealed(c, c.seal(p)) && c.unseal(c.seal(p)) == p)
    && (forall m, s :: c.parse(c.render(m, s)) == Some((m, s)))
    && c.sealedEncoding != JSON
  }

  // ---------- payloads ----------

  /** Ours already, or in an encoding somebody else encrypts. */
  predicate AlreadySealed(c: Codec, encodings: set<string>, p: Payload) {
    IsSealed(c, p) || Meta(p, ENCODING) in encodings
  }

  function SealOne(c: Codec, encodings: set<string>, p: Payload): Payload {
    if AlreadySealed(c, encodings, p) then p else c.seal(p)
  }

  function OpenOne(c: Codec, p: Payload): Payload {
    if IsSealed(c, p) then c.unseal(p) else p
  }

  function Each<T>(f: T -> T, items: seq<T>): (r: seq<T>)
    ensures |r| == |items|
    ensures forall i :: 0 <= i < |items| ==> r[i] == f(items[i])
  {
    seq(|items|, i requires 0 <= i < |items| => f(items[i]))
  }

  /** The chain's Encode seals every payload it is given, or fails as a whole. */
  ghost predicate Encodes(seal: Payload -> Payload, encode: seq<Payload> -> Option<seq<Payload>>) {
    forall ps :: encode(ps).Some? ==> encode(ps).value == Each(seal, ps)
  }

  /** The payloads to be sealed, in order. */
  function Todo(sealed: Payload -> bool, ps: seq<Payload>): seq<Payload> {
    if ps == [] then []
    else Todo(sealed, ps[..|ps| - 1]) + if sealed(ps[|ps| - 1]) then [] else [ps[|ps| - 1]]
  }

  /** `at` lists, in order, the positions of the payloads still to be sealed. */
  ghost predicate Picks(sealed: Payload -> bool, ps: seq<Payload>, at: seq<int>) {
    && (forall j :: 0 <= j < |at| ==> 0 <= at[j] < |ps|)
    && (forall j, k :: 0 <= j < k < |at| ==> at[j] < at[k])
    && (forall k :: 0 <= k < |ps| ==> (k in at <==> !sealed(ps[k])))
  }

  /** `todo` holds the payloads at those positions. */
  ghost predicate Taken(ps: seq<Payload>, at: seq<int>, todo: seq<Payload>) {
    |at| == |todo| && forall j :: 0 <= j < |at| ==> 0 <= at[j] < |ps| && ps[at[j]] == todo[j]
  }

  function Positions(sealed: Payload -> bool, ps: seq<Payload>): seq<int> {
    if ps == [] then []
    else Positions(sealed, ps[..|ps| - 1]) + if sealed(ps[|ps| - 1]) then [] else [|ps| - 1]
  }

  lemma {:induction false} PositionsPick(sealed: Payload -> bool, ps: seq<Payload>)
    ensures Picks(sealed, ps, Positions(sealed, ps))
    ensures Taken(ps, Positions(sealed, ps), Todo(sealed, ps))
  {
    if ps != [] {
      var front, last := ps[..|ps| - 1], ps[|ps| - 1];
      PositionsPick(sealed, front);
      assert front + [last] == ps;
      PickOneMore(sealed, front, Positions(sealed, front), last);
      TakeOneMore(front, Positions(sealed, front), Todo(sealed, front), last);
    }
  }

  lemma TakeOneMore(ps: seq<Payload>, at: seq<int>, todo: seq<Payload>, p: Payload)
    requires Taken(ps, at, todo)
    ensures Taken(ps + [p], at, todo) && Taken(ps + [p], at + [|ps|], todo + [p])
  {
  }

  lemma PickOneMore(sealed: Payload -> bool, ps: seq<Payload>, at: seq<int>, p: Payload)
    requires Picks(sealed, ps, at)
    ensures Picks(sealed, ps + [p], if sealed(p) then at else at + [|ps|])
  {
  }

  method Gather(sealed: Payload -> bool, payloads: seq<Payload>) returns (at: seq<int>, todo: seq<Payload>)
    ensures todo == Todo(sealed, payloads)
    ensures Picks(sealed, payloads, at)
    ensures Taken(payloads, at, todo)
  {
    at, todo := [], [];
    for i := 0 to |payloads|
      invariant todo == Todo(sealed, payloads[..i])
      invariant at == Positions(sealed, payloads[..i])
    {
      assert payloads[..i + 1][..i] == payloads[..i];
      if !sealed(payloads[i]) {
        at, todo := at + [i], todo + [payloads[i]];
      }
    }
    assert payloads[..|payloads|] == payloads;
    PositionsPick(sealed, payloads);
  }

  method Scatter(payloads: seq<Payload>, at: seq<int>, done: seq<Payload>) returns (out: seq<Payload>)
    requires |done| == |at| && forall j :: 0 <= j < |at| ==> 0 <= at[j] < |payloads|
    requires forall j, k :: 0 <= j < k < |at| ==> at[j] < at[k]
    ensures |out| == |payloads|
    ensures forall j :: 0 <= j < |at| ==> out[at[j]] == done[j]
    ensures forall k :: 0 <= k < |out| && k !in at ==> out[k] == payloads[k]
  {
    out := payloads;
    for j := 0 to |at|
      invariant |out| == |payloads|
      invariant forall l :: 0 <= l < j ==> out[at[l]] == done[l]
      invariant forall k :: 0 <= k < |out| && k !in at ==> out[k] == payloads[k]
    {
      assert at[j] in at;
      out := out[at[j] := done[j]];
    }
  }

  /**
   sealUnlessSealed: gather the unsealed payloads with their positions, seal them in one
   call, and put the results back where they came from.
   */
  method SealUnlessSealed(
    sealed: Payload -> bool, seal: Payload -> Payload, encode: seq<Payload> -> Option<seq<Payload>>,
    payloads: seq<Payload>)
    returns (out: Option<seq<Payload>>)
    requires Encodes(seal, encode)
    ensures out.Some? ==> |out.value| == |payloads|
    ensures out.Some? ==> forall k :: 0 <= k < |payloads| ==>
              out.value[k] == if sealed(payloads[k]) then payloads[k] else seal(payloads[k])
    ensures out.None? <==> Todo(sealed, payloads) != [] && encode(Todo(sealed, payloads)).None?
  {
    var at, todo := Gather(sealed, payloads);
    if |todo| == 0 {
      return Some(payloads);
    }
    var done := encode(todo);
    if done.None? {
      return None;
    }
    var placed := Scatter(payloads, at, done.value);
    forall k | 0 <= k < |payloads|
      ensures placed[k] == if sealed(payloads[k]) then payloads[k] else seal(payloads[k])
    {
      if k in at {
        var j :| 0 <= j < |at| && at[j] == k;
        assert placed[at[j]] == seal(todo[j]);
      }
    }
    return Some(placed);
  }

  /** The outbound visitor of NewEncryptor: sealUnlessSealed with the encryptor's own test. */
  method SealPayloads(
    c: Codec, encodings: set<string>, encode: seq<Payload> -> Option<seq<Payload>>, payloads: seq<Payload>)
    returns (out: Option<seq<Payload>>)
    requires Encodes(c.seal, encode)
    ensures out.Some? ==> out.value == Each(p => SealOne(c, encodings, p), payloads)
  {
    out := SealUnlessSealed(p => AlreadySealed(c, encodings, p), c.seal, encode, payloads);
  }

  /** Sealing twice is sealing once, and a payload that was not ours opens to itself. */
  lemma SealIsIdempotentAndOpens(c: Codec, encodings: set<string>, p: Payload)
    requires Lawful(c)
    ensures SealOne(c, encodings, SealOne(c, encodings, p)) == SealOne(c, encodings, p)
    ensures !IsSealed(c, p) ==> OpenOne(c, SealOne(c, encodings, p)) == p
  {
  }

  // ---------- failures ----------

  datatype Failure = Failure(
    message: string, stackTrace: string, attributes: Option<Payload>, details: seq<Payload>, cause: Option<Failure>)

  /** encodeFailure, on one failure: its text moves into marked attributes unless it has some. */
  function EncodeOne(c: Codec, f: Failure): Failure {
    if f.attributes.Some? then f
    else f.(message := PLACEHOLDER, stackTrace := "",
            attributes := Some(Payload(map[ENCODING := JSON, MARKER := "true"], c.render(f.message, f.stackTrace))))
  }

  /** Attributes restoreFailure acts on: marked, opened and readable. */
  predicate Restorable(c: Codec, p: Payload) {
    |Meta(p, MARKER)| > 0 && Meta(p, ENCODING) == JSON && c.parse(p.data).Some?
  }

  function RestoreOne(c: Codec, f: Failure): Failure {
    if f.attributes.Some? && Restorable(c, f.attributes.value) then
      var text := c.parse(f.attributes.value.data).value;
      f.(message := text.0, stackTrace := text.1, attributes := None)
    else f
  }

  /** The failure message that the two functions change in place; its cause is not visited. */
  class FailureMessage {
    var message: string
    var stackTrace: string
    var attributes: Option<Payload>

    /** Its value, given the parts no method here touches. */
    ghost function Value(details: seq<Payload>, cause: Option<Failure>): Failure
      reads this
    {
      Failure(message, stackTrace, attributes, details, cause)
    }

    constructor (message: string, stackTrace: string, attributes: Option<Payload>)
      ensures forall d, g :: Value(d, g) == Failure(message, stackTrace, attributes, d, g)
    {
      this.message, this.stackTrace, this.attributes := message, stackTrace, attributes;
    }

    /** encodeFailure. */
    method Encode(c: Codec)
      modifies this
      ensures forall d, g :: Value(d, g) == EncodeOne(c, old(Value(d, g)))
      ensures old(attributes).Some? ==>
                message == old(message) && stackTrace == old(stackTrace) && attributes == old(attributes)
      ensures old(attributes).None? ==>
                && message == PLACEHOLDER && stackTrace == "" && attributes.Some?
                && attributes.value.metadata == map[ENCODING := JSON, MARKER := "true"]
                && attributes.value.data == c.render(old(message), old(stackTrace))
    {
      if attributes.Some? {
        return;
      }
      var text := c.render(message, stackTrace);
      message, stackTrace := PLACEHOLDER, "";
      attributes := Some(Payload(map[ENCODING := JSON], text));
      attributes := Some(Payload(attributes.value.metadata[MARKER := "true"], text));
    }

    /** restoreFailure. */
    method Restore(c: Codec)
      modifies this
      ensures forall d, g :: Value(d, g) == RestoreOne(c, old(Value(d, g)))
      ensures attributes == old(attributes) ==> message == old(message) && stackTrace == old(stackTrace)
      ensures attributes != old(attributes) ==>
                && old(attributes).Some? && attributes == None
                && c.parse(old(attributes).value.data) == Some((message, stackTrace))
    {
      if attributes.None? || |Meta(attributes.value, MARKER)| == 0 || Meta(attributes.value, ENCODING) != JSON {
        return;
      }
      var text := c.parse(attributes.value.data);
      if text.None? {
        return;
      }
      message, stackTrace, attributes := text.value.0, text.value.1, None;
    }
  }

  function Attributes(g: Payload -> Payload, a: Option<Payload>): Option<Payload> {
    if a.Some? then Some(g(a.value)) else None
  }

  // The visitors reach every failure of a chain and every payload of a failure.

  function EncodeChain(c: Codec, f: Failure): Failure {
    EncodeOne(c, f).(cause := if f.cause.Some? then Some(EncodeChain(c, f.cause.value)) else None)
  }

  function RestoreChain(c: Codec, f: Failure): Failure {
    RestoreOne(c, f).(cause := if f.cause.Some? then Some(RestoreChain(c, f.cause.value)) else None)
  }

  function VisitPayloads(g: Payload -> Payload, f: Failure): Failure {
    f.(attributes := Attributes(g, f.attributes), details := Each(g, f.details),
       cause := if f.cause.Some? then Some(VisitPayloads(g, f.cause.value)) else None)
  }

  /** Nothing in the chain is one of our sealed payloads yet. */
  ghost predicate Unsealed(c: Codec, f: Failure) {
    && (f.attributes.Some? ==> !IsSealed(c, f.attributes.value))
    && (forall i :: 0 <= i < |f.details| ==> !IsSealed(c, f.details[i]))
    && (f.cause.Some? ==> Unsealed(c, f.cause.value))
  }

  /** No failure of the chain carries attributes that look like our own encoding. */
  ghost predicate Unmarked(c: Codec, f: Failure) {
    && (f.attributes.Some? ==> !Restorable(c, f.attributes.value))
    && (f.cause.Some? ==> Unmarked(c, f.cause.value))
  }

  /** What each side is configured to do with what it sends and receives. */
  datatype Config = Config(enabled: bool, vault: bool, encodeFailures: bool, reverse: bool, encodings: set<string>)

  function SealFn(c: Codec, cfg: Config): Payload -> Payload {
    p => if cfg.enabled then SealOne(c, cfg.encodings, p) else p
  }

  function OpenFn(c: Codec): Payload -> Payload {
    p => OpenOne(c, p)
  }

  function Outgoing(c: Codec, cfg: Config, f: Failure): Failure {
    VisitPayloads(SealFn(c, cfg), if cfg.encodeFailures then EncodeChain(c, f) else f)
  }

  function Incoming(c: Codec, f: Failure): Failure {
    RestoreChain(c, VisitPayloads(OpenFn(c), f))
  }

  lemma PayloadsRoundTrip(c: Codec, cfg: Config, ps: seq<Payload>)
    requires Lawful(c) && forall i :: 0 <= i < |ps| ==> !IsSealed(c, ps[i])
    ensures Each(OpenFn(c), Each(SealFn(c, cfg), ps)) == ps
  {
  }

  /** One failure, crossing with or without encoding. */
  lemma OneRoundTrips(c: Codec, cfg: Config, f: Failure)
    requires Lawful(c) && f.cause.None? && Unsealed(c, f)
    ensures Incoming(c, Outgoing(c, cfg, f)) == f <==> Unmarked(c, f)
  {
  }

  /** The crossing of a chain is the crossing of its head over the crossing of its cause. */
  lemma CrossingIsPerFailure(c: Codec, cfg: Config, f: Failure)
    requires f.cause.Some?
    ensures var head, cause := f.(cause := None), f.cause.value;
            Incoming(c, Outgoing(c, cfg, f)) ==
            Incoming(c, Outgoing(c, cfg, head)).(cause := Some(Incoming(c, Outgoing(c, cfg, cause))))
  {
  }

  /**
   A chain of any depth comes back exactly as it was, whatever the configuration, if and
   only if none of its failures already carried attributes marked as ours.
   */
  lemma {:induction false} ChainRoundTrips(c: Codec, cfg: Config, f: Failure)
    requires Lawful(c) && Unsealed(c, f)
    ensures Incoming(c, Outgoing(c, cfg, f)) == f <==> Unmarked(c, f)
    decreases f
  {
    var head := f.(cause := None);
    OneRoundTrips(c, cfg, head);
    if f.cause.Some? {
      ChainRoundTrips(c, cfg, f.cause.value);
      CrossingIsPerFailure(c, cfg, f);
    }
  }

  /** With failures encoded, no text of a failure without prior attributes crosses unsealed. */
  ghost predicate TextHidden(c: Codec, original: Failure, crossing: Failure) {
    && (original.attributes.None? ==>
          && crossing.message == PLACEHOLDER && crossing.stackTrace == ""
          && crossing.attributes.Some? && IsSealed(c, crossing.attributes.value))
    && (original.cause.Some? ==> crossing.cause.Some? && TextHidden(c, original.cause.value, crossing.cause.value))
  }

  lemma {:induction false} EncodedTextIsSealed(c: Codec, cfg: Config, f: Failure)
    requires Lawful(c) && cfg.enabled && cfg.encodeFailures && JSON !in cfg.encodings
    ensures TextHidden(c, f, Outgoing(c, cfg, f))
    decreases f
  {
    if f.attributes.None? {
      assert IsSealed(c, c.seal(EncodeOne(c, f).attributes.value));
    }
    if f.cause.Some? {
      EncodedTextIsSealed(c, cfg, f.cause.value);
    }
  }

  // ---------- interceptors ----------

  datatype Message = Message(payloads: seq<Payload>, failures: seq<Failure>)

  type Handler = Message -> Message

  type Interceptor = (Message, Handler) -> Message

  /** chainUnary: outer sees the request first and the response last. */
  function ChainUnary(outer: Interceptor, inner: Interceptor): Interceptor {
    (req: Message, invoker: Handler) => outer(req, (r: Message) => inner(r, invoker))
  }

  function Visitor(outbound: Handler, inbound: Handler): Interceptor {
    (req: Message, invoker: Handler) => inbound(invoker(outbound(req)))
  }

  function OnPayloads(g: Payload -> Payload): Handler {
    (m: Message) => Message(Each(g, m.payloads), Each(f => VisitPayloads(g, f), m.failures))
  }

  function OnFailures(g: Failure -> Failure): Handler {
    (m: Message) => m.(failures := Each(g, m.failures))
  }

  function Same(): Handler {
    (m: Message) => m
  }

  datatype Built = Refused | Built(interceptor: Interceptor)

  function Encode(c: Codec, cfg: Config): Handler {
    if cfg.encodeFailures then OnFailures(f => EncodeChain(c, f)) else Same()
  }

  function Restore(c: Codec): Handler {
    OnFailures(f => RestoreChain(c, f))
  }

  function Seal(c: Codec, cfg: Config): Handler {
    if cfg.vault && cfg.enabled then OnPayloads(SealFn(c, cfg)) else Same()
  }

  function Open(c: Codec, cfg: Config): Handler {
    if cfg.vault then OnPayloads(OpenFn(c)) else Same()
  }

  /** Encryption needs a vault, and encoding failures needs encryption. */
  predicate Accepted(cfg: Config) {
    (cfg.enabled ==> cfg.vault) && (cfg.encodeFailures ==> cfg.enabled)
  }

  /** NewEncryptor: which visitor runs in which direction, and which interceptor is outside. */
  function NewEncryptor(c: Codec, cfg: Config): Built {
    if !Accepted(cfg) then Refused
    else
      var unary := if cfg.reverse then Visitor(Open(c, cfg), Seal(c, cfg)) else Visitor(Seal(c, cfg), Open(c, cfg));
      if !cfg.vault then Built(unary)
      else
        var encode, restore := Encode(c, cfg), Restore(c);
        var failures := if cfg.reverse then Visitor(restore, encode) else Visitor(encode, restore);
        Built(if cfg.reverse then ChainUnary(unary, failures) else ChainUnary(failures, unary))
  }

  /** What two chained visitors do to a request and its reply. */
  lemma ChainOfVisitors(out1: Handler, in1: Handler, out2: Handler, in2: Handler, req: Message, invoker: Handler)
    ensures ChainUnary(Visitor(out1, in1), Visitor(out2, in2))(req, invoker) == in1(in2(invoker(out2(out1(req)))))
  {
  }

  /** A message as it leaves the sealing side: encoded, then sealed. */
  function SealedForm(c: Codec, cfg: Config, m: Message): Message {
    Seal(c, cfg)(Encode(c, cfg)(m))
  }

  /** A message as the opening side hands it on: opened, then restored. */
  function OpenedForm(c: Codec, cfg: Config, m: Message): Message {
    Restore(c)(Open(c, cfg)(m))
  }

  /** In both settings of Reverse, encode comes before seal and restore after open. */
  lemma NestingOrdersTheVisits(c: Codec, cfg: Config, req: Message, invoker: Handler)
    requires cfg.vault && Accepted(cfg)
    ensures NewEncryptor(c, cfg).interceptor(req, invoker) ==
            if cfg.reverse then SealedForm(c, cfg, invoker(OpenedForm(c, cfg, req)))
            else OpenedForm(c, cfg, invoker(SealedForm(c, cfg, req)))
  {
    if cfg.reverse {
      ChainOfVisitors(Open(c, cfg), Seal(c, cfg), Restore(c), Encode(c, cfg), req, invoker);
    } else {
      ChainOfVisitors(Encode(c, cfg), Restore(c), Seal(c, cfg), Open(c, cfg), req, invoker);
    }
  }

  ghost predicate Clean(c: Codec, m: Message) {
    && (forall i :: 0 <= i < |m.payloads| ==> !IsSealed(c, m.payloads[i]))
    && (forall i :: 0 <= i < |m.failures| ==> Unsealed(c, m.failures[i]) && Unmarked(c, m.failures[i]))
  }

  // ---------- what leaves the sealing side ----------

  /** The payload at its own place: left alone if it is one of ours or in a configured encoding, else sealed. */
  lemma EachPayloadIsSealed(c: Codec, cfg: Config, m: Message, i: nat)
    requires cfg.vault && cfg.enabled && i < |m.payloads|
    ensures var p, out := m.payloads[i], SealedForm(c, cfg, m).payloads;
            var encoding := if ENCODING in p.metadata then p.metadata[ENCODING] else "";
            var ours := encoding == c.sealedEncoding && KEY_ID in p.metadata && p.metadata[KEY_ID] != ""
                        && DEK in p.metadata && p.metadata[DEK] != "";
            |out| == |m.payloads| && out[i] == if ours || encoding in cfg.encodings then p else c.seal(p)
  {
  }

  ghost predicate Hidden(c: Codec, cfg: Config, p: Payload) {
    IsSealed(c, p) || Meta(p, ENCODING) in cfg.encodings
  }

  /** Every payload of the chain, attributes and details of every failure, is sealed or in a configured encoding. */
  ghost predicate ChainHidden(c: Codec, cfg: Config, f: Failure) {
    && (f.attributes.Some? ==> Hidden(c, cfg, f.attributes.value))
    && (forall i :: 0 <= i < |f.details| ==> Hidden(c, cfg, f.details[i]))
    && (f.cause.Some? ==> ChainHidden(c, cfg, f.cause.value))
  }

  lemma {:induction false} OutgoingIsHidden(c: Codec, cfg: Config, f: Failure)
    requires Lawful(c) && cfg.enabled
    ensures ChainHidden(c, cfg, VisitPayloads(SealFn(c, cfg), f))
    ensures SameShape(f, VisitPayloads(SealFn(c, cfg), f))
    decreases f
  {
    if f.cause.Some? {
      OutgoingIsHidden(c, cfg, f.cause.value);
    }
  }

  /** The same text, the same number of payloads at each place, the same depth. */
  ghost predicate SameShape(f: Failure, g: Failure) {
    && f.message == g.message && f.stackTrace == g.stackTrace
    && (f.attributes.Some? <==> g.attributes.Some?) && |f.details| == |g.details|
    && (f.cause.Some? <==> g.cause.Some?) && (f.cause.Some? ==> SameShape(f.cause.value, g.cause.value))
  }

  /** The interceptor treats each failure of a message as an outgoing failure. */
  lemma FailuresGoOut(c: Codec, cfg: Config, m: Message, i: nat)
    requires cfg.vault && cfg.enabled && i < |m.failures|
    ensures |SealedForm(c, cfg, m).failures| == |m.failures|
    ensures SealedForm(c, cfg, m).failures[i] == Outgoing(c, cfg, m.failures[i])
  {
  }

  /** Nothing of `m` is in the clear in `out`. */
  ghost predicate AllHidden(c: Codec, cfg: Config, m: Message, out: Message) {
    && |out.payloads| == |m.payloads| && |out.failures| == |m.failures|
    && (forall i :: 0 <= i < |out.payloads| ==> Hidden(c, cfg, out.payloads[i]))
    && (forall i :: 0 <= i < |out.failures| ==> ChainHidden(c, cfg, out.failures[i]))
    && (cfg.encodeFailures && JSON !in cfg.encodings ==>
          forall i :: 0 <= i < |m.failures| ==> TextHidden(c, m.failures[i], out.failures[i]))
  }

  /**
   With encryption on, nothing leaves in the clear: every payload of the message and of its failures
   is sealed or in a configured encoding, and with failures encoded no failure text crosses.
   */
  lemma NothingLeavesUnsealed(c: Codec, cfg: Config, m: Message)
    requires Lawful(c) && cfg.vault && cfg.enabled
    ensures AllHidden(c, cfg, m, SealedForm(c, cfg, m))
  {
    var out := SealedForm(c, cfg, m);
    forall i | 0 <= i < |m.failures|
      ensures ChainHidden(c, cfg, out.failures[i])
      ensures cfg.encodeFailures && JSON !in cfg.encodings ==> TextHidden(c, m.failures[i], out.failures[i])
    {
      FailuresGoOut(c, cfg, m, i);
      OutgoingIsHidden(c, cfg, if cfg.encodeFailures then EncodeChain(c, m.failures[i]) else m.failures[i]);
      if cfg.encodeFailures && JSON !in cfg.encodings {
        EncodedTextIsSealed(c, cfg, m.failures[i]);
      }
    }
    forall i | 0 <= i < |out.payloads|
      ensures Hidden(c, cfg, out.payloads[i])
    {
      EachPayloadIsSealed(c, cfg, m, i);
    }
  }

  /**
   The interceptor itself: facing out, the invoker only ever sees a hidden form of the request;
   reversed, the caller only ever sees a hidden form of the reply.
   */
  lemma InterceptorHides(c: Codec, cfg: Config, req: Message, invoker: Handler) returns (wire: Message)
    requires Lawful(c) && cfg.vault && cfg.enabled && Accepted(cfg)
    ensures !cfg.reverse ==>
              && AllHidden(c, cfg, req, wire)
              && NewEncryptor(c, cfg).interceptor(req, invoker) == OpenedForm(c, cfg, invoker(wire))
    ensures cfg.reverse ==>
              && AllHidden(c, cfg, invoker(OpenedForm(c, cfg, req)), wire)
              && NewEncryptor(c, cfg).interceptor(req, invoker) == wire
  {
    NestingOrdersTheVisits(c, cfg, req, invoker);
    wire := HiddenForm(c, cfg, if cfg.reverse then invoker(OpenedForm(c, cfg, req)) else req);
  }

  lemma HiddenForm(c: Codec, cfg: Config, m: Message) returns (wire: Message)
    requires Lawful(c) && cfg.vault && cfg.enabled
    ensures wire == SealedForm(c, cfg, m) && AllHidden(c, cfg, m, wire)
  {
    wire := SealedForm(c, cfg, m);
    NothingLeavesUnsealed(c, cfg, m);
  }

  /** NewEncryptor refuses exactly encryption without a vault and failure encoding without encryption. */
  lemma RefusedIff(c: Codec, cfg: Config)
    ensures NewEncryptor(c, cfg).Refused? <==> (cfg.enabled && !cfg.vault) || (cfg.encodeFailures && !cfg.enabled)
  {
  }

  /** Without a vault the interceptor does nothing in either direction. */
  lemma NoVaultChangesNothing(c: Codec, cfg: Config, req: Message, invoker: Handler)
    requires !cfg.vault && Accepted(cfg)
    ensures NewEncryptor(c, cfg).interceptor(req, invoker) == invoker(req)
  {
  }

  /** Attributes that are not ours, not opened or not readable stay exactly as they came. */
  lemma OnlyOurEncodingIsRestored(c: Codec, f: Failure)
    requires f.attributes.Some?
    requires var md := f.attributes.value.metadata;
             || MARKER !in md || md[MARKER] == "" || ENCODING !in md || md[ENCODING] != JSON
             || c.parse(f.attributes.value.data).None?
    ensures RestoreOne(c, f) == f
  {
  }

  lemma VisitNothing(f: Failure, g: Payload -> Payload)
    requires forall p :: g(p) == p
    ensures VisitPayloads(g, f) == f
    decreases f
  {
  }

  lemma MessageRoundTrips(c: Codec, cfg: Config, opener: Config, m: Message)
    requires Lawful(c) && Clean(c, m) && cfg.vault && opener.vault && (cfg.encodeFailures ==> cfg.enabled)
    ensures OpenedForm(c, opener, SealedForm(c, cfg, m)) == m
  {
    var back := OpenedForm(c, opener, SealedForm(c, cfg, m));
    if cfg.enabled {
      PayloadsRoundTrip(c, cfg, m.payloads);
    } else {
      assert Each(OpenFn(c), m.payloads) == m.payloads;
    }
    forall i | 0 <= i < |m.failures|
      ensures back.failures[i] == m.failures[i]
    {
      ChainRoundTrips(c, cfg, m.failures[i]);
      if !cfg.enabled {
        VisitNothing(m.failures[i], SealFn(c, cfg));
      }
    }
    assert back.failures == m.failures;
  }

  /**
   A proxy facing outward and its peer facing inward are together transparent: whatever
   either is configured to encrypt, the server sees the request the client sent and the
   client sees the server's reply.
   */
  lemma FacingProxiesAreTransparent(c: Codec, near: Config, far: Config, req: Message, server: Handler)
    requires Lawful(c) && near.vault && far.vault && !near.reverse && far.reverse
    requires Accepted(near) && Accepted(far)
    requires Clean(c, req) && Clean(c, server(req))
    ensures NewEncryptor(c, near).interceptor(req, r => NewEncryptor(c, far).interceptor(r, server)) == server(req)
  {
    var peer: Handler := r => NewEncryptor(c, far).interceptor(r, server);
    NestingOrdersTheVisits(c, near, req, peer);
    NestingOrdersTheVisits(c, far, SealedForm(c, near, req), server);
    MessageRoundTrips(c, near, far, req);
    MessageRoundTrips(c, far, near, server(req));
  }
}
