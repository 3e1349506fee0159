/**
 Applying a payload codec to every eligible payload field of a message. The codec may keep state (a
 nonce, a counter), so that the same batch may be encoded differently every time. The entries of a map
 field are visited in any order.
 */
module PayloadCodec {
  import opened Basics

  /** State of the codec and of whatever decides the iteration order of maps. */
  type CodecState(!new)
  type Data(!new, ==)

  /** What a codec returns; a returned payload may be nil. */
  datatype Reply = Failed | Returned(payloads: seq<Option<Payload>>)

  datatype Message = Message(isSearchAttributes: bool, fields: seq<Field>)

  /** A map field has one key per value. A list or map without elements is the same as an unset field. */
  datatype Field =
    | Absent
    | Scalar(data: Data)                                        // or a list or map of scalars
    | Single(payload: Payload)
    | PayloadList(payloads: seq<Payload>)
    | Nested(message: Message)
    | NestedList(messages: seq<Message>)
    | PayloadMap(keys: seq<string>, payloads: seq<Payload>)
    | NestedMap(keys: seq<string>, messages: seq<Message>)

  datatype Env = Env(
    transform: (CodecState, seq<Payload>) -> (CodecState, Reply),
    order: (CodecState, nat) -> seq<nat>)

  /** `log` is history: the batches the codec was given. */
  datatype Walk = Walk(state: CodecState, log: seq<seq<Payload>>)

  // ---- One batch ----

  function Present(payloads: seq<Option<Payload>>): Option<seq<Payload>> {
    if payloads == [] then Some([])
    else if payloads[0] == None || Present(payloads[1..]) == None then None
    else Some([payloads[0].value] + Present(payloads[1..]).value)
  }

  /** What a list field accepts: any number of payloads, none of them nil. */
  function ListReply(reply: Reply): Option<seq<Payload>> {
    if reply == Failed then None else Present(reply.payloads)
  }

  /** What a singular field accepts: exactly one payload. */
  function SingleReply(reply: Reply): Option<Payload> {
    if reply.Returned? && |reply.payloads| == 1 then reply.payloads[0] else None
  }

  function CallCodec(env: Env, w: Walk, batch: seq<Payload>): (Walk, Reply) {
    var (state, reply) := env.transform(w.state, batch);
    (Walk(state, w.log + [batch]), reply)
  }

  // ---- The walk ----

  predicate IsOrder(order: seq<nat>, n: nat) {
    && |order| == n && (forall k :: 0 <= k < n ==> order[k] < n)
    && forall j, k :: 0 <= j < k < n ==> order[j] != order[k]
  }

  ghost predicate Fair(env: Env) {
    forall s: CodecState, n: nat :: IsOrder(env.order(s, n), n)
  }

  function InOrder(n: nat): (order: seq<nat>)
    ensures IsOrder(order, n)
  {
    seq(n, k => k)
  }

  /** The message as the walk leaves it, and whether the walk went through. */
  function TransformMessage(env: Env, w: Walk, m: Message): (Walk, Message, bool)
    requires Fair(env)
    decreases m
  {
    if m.isSearchAttributes then (w, m, true)
    else
      var r := TransformFields(env, w, m.fields);
      (r.0, m.(fields := r.1), r.2)
  }

  /** Field by field; after an error the remaining fields stay as they are. */
  function TransformFields(env: Env, w: Walk, fields: seq<Field>): (r: (Walk, seq<Field>, bool))
    requires Fair(env)
    ensures |r.1| == |fields|
    decreases fields
  {
    if fields == [] then (w, [], true)
    else
      var r := TransformField(env, w, fields[0]);
      if !r.2 then (r.0, [r.1] + fields[1..], false)
      else
        var rest := TransformFields(env, r.0, fields[1..]);
        (rest.0, [r.1] + rest.1, rest.2)
  }

  function TransformField(env: Env, w: Walk, f: Field): (Walk, Field, bool)
    requires Fair(env)
    decreases f
  {
    match f
    case Absent => (w, f, true)
    case Scalar(_) => (w, f, true)
    case Single(p) =>
      var (w1, reply) := CallCodec(env, w, [p]);
      if SingleReply(reply) == None then (w1, f, false) else (w1, Single(SingleReply(reply).value), true)
    case PayloadList(ps) =>
      if ps == [] then (w, f, true)
      else
        var (w1, reply) := CallCodec(env, w, ps);
        if ListReply(reply) == None then (w1, f, false) else (w1, PayloadList(ListReply(reply).value), true)
    case Nested(m) =>
      var r := TransformMessage(env, w, m);
      (r.0, Nested(r.1), r.2)
    case NestedList(ms) =>
      var r := TransformAt(env, w, ms, ms, InOrder(|ms|));
      (r.0, NestedList(r.1), r.2)
    case PayloadMap(keys, ps) =>
      var r := TransformPayloads(env, w, ps, ps, env.order(w.state, |ps|));
      (r.0, PayloadMap(keys, r.1), r.2)
    case NestedMap(keys, ms) =>
      var r := TransformAt(env, w, ms, ms, env.order(w.state, |ms|));
      (r.0, NestedMap(keys, r.1), r.2)
  }

  /** The messages at these places, one after the other; `done` is what they have become so far. */
  function TransformAt(env: Env, w: Walk, ms: seq<Message>, done: seq<Message>, order: seq<nat>)
    : (r: (Walk, seq<Message>, bool))
    requires Fair(env) && |done| == |ms| && forall k :: 0 <= k < |order| ==> order[k] < |ms|
    ensures |r.1| == |ms|
    decreases ms, |order|
  {
    if order == [] then (w, done, true)
    else
      var r := TransformMessage(env, w, ms[order[0]]);
      var next := done[order[0] := r.1];
      if !r.2 then (r.0, next, false) else TransformAt(env, r.0, ms, next, order[1..])
  }

  function TransformPayloads(env: Env, w: Walk, ps: seq<Payload>, done: seq<Payload>, order: seq<nat>)
    : (r: (Walk, seq<Payload>, bool))
    requires |done| == |ps| && forall k :: 0 <= k < |order| ==> order[k] < |ps|
    ensures |r.1| == |ps|
    decreases |order|
  {
    if order == [] then (w, done, true)
    else
      var (w1, reply) := CallCodec(env, w, [ps[order[0]]]);
      if SingleReply(reply) == None then (w1, done, false)
      else TransformPayloads(env, w1, ps, done[order[0] := SingleReply(reply).value], order[1..])
  }

  // ---- What a successful walk did ----

  /** In some state the codec turns this batch into that one. */
  ghost predicate Makes(env: Env, b: seq<Payload>, c: seq<Payload>) {
    exists s: CodecState :: ListReply(env.transform(s, b).1) == Some(c)
  }

  /** `m2` is `m1` with every payload field transformed as one batch and nothing else changed. */
  ghost predicate MessageMade(env: Env, m1: Message, m2: Message)
    decreases m1
  {
    if m1.isSearchAttributes then m2 == m1
    else
      && !m2.isSearchAttributes && |m2.fields| == |m1.fields|
      && forall k :: 0 <= k < |m1.fields| ==> FieldMade(env, m1.fields[k], m2.fields[k])
  }

  ghost predicate FieldMade(env: Env, f1: Field, f2: Field)
    decreases f1
  {
    match f1
    case Absent => f2 == f1
    case Scalar(_) => f2 == f1
    case Single(p) => f2.Single? && Makes(env, [p], [f2.payload])
    case PayloadList(ps) => f2.PayloadList? && if ps == [] then f2 == f1 else Makes(env, ps, f2.payloads)
    case Nested(m) => f2.Nested? && MessageMade(env, m, f2.message)
    case NestedList(ms) =>
      && f2.NestedList? && |f2.messages| == |ms|
      && forall k :: 0 <= k < |ms| ==> MessageMade(env, ms[k], f2.messages[k])
    case PayloadMap(keys, ps) =>
      && f2.PayloadMap? && f2.keys == keys && |f2.payloads| == |ps|
      && forall k :: 0 <= k < |ps| ==> Makes(env, [ps[k]], [f2.payloads[k]])
    case NestedMap(keys, ms) =>
      && f2.NestedMap? && f2.keys == keys && |f2.messages| == |ms|
      && forall k :: 0 <= k < |ms| ==> MessageMade(env, ms[k], f2.messages[k])
  }

  lemma SingleIsList(reply: Reply)
    ensures SingleReply(reply).Some? ==> ListReply(reply) == Some([SingleReply(reply).value])
    ensures ListReply(reply).Some? && |ListReply(reply).value| == 1 ==>
              SingleReply(reply) == Some(ListReply(reply).value[0])
  {
    if reply.Returned? {
      PresentIs(reply.payloads);
      if |reply.payloads| == 1 && reply.payloads[0].Some? {
        assert Present(reply.payloads).value == [reply.payloads[0].value];
      }
    }
  }

  lemma {:induction false} PresentIs(payloads: seq<Option<Payload>>)
    ensures Present(payloads).Some? <==> forall k :: 0 <= k < |payloads| ==> payloads[k].Some?
    ensures Present(payloads).Some? ==> |Present(payloads).value| == |payloads|
    ensures Present(payloads).Some? ==> forall k :: 0 <= k < |payloads| ==> Present(payloads).value[k] == payloads[k].value
  {
    if payloads != [] {
      PresentIs(payloads[1..]);
      assert forall k :: 0 < k < |payloads| ==> payloads[k] == payloads[1..][k - 1];
    }
  }

  /**
   What a field accepts of a codec's reply, written out: a list field all the payloads in their order,
   unless one is nil; a singular field the payload of a reply with exactly one.
   */
  lemma RepliesExactly(reply: Reply, payloads: seq<Payload>, payload: Payload)
    ensures ListReply(reply) == Some(payloads) <==>
            && reply.Returned? && |reply.payloads| == |payloads|
            && forall k :: 0 <= k < |payloads| ==> reply.payloads[k] == Some(payloads[k])
    ensures SingleReply(reply) == Some(payload) <==> reply == Returned([Some(payload)])
  {
    if reply.Returned? {
      PresentIs(reply.payloads);
      if |reply.payloads| == |payloads| && (forall k :: 0 <= k < |payloads| ==> reply.payloads[k] == Some(payloads[k])) {
        assert Present(reply.payloads).value == payloads;
      }
      if |reply.payloads| == 1 {
        assert reply.payloads == [reply.payloads[0]];
      }
    }
  }

  lemma {:induction false} MessageIsMade(env: Env, w: Walk, m: Message)
    requires Fair(env) && TransformMessage(env, w, m).2
    ensures MessageMade(env, m, TransformMessage(env, w, m).1)
    decreases m
  {
    if !m.isSearchAttributes {
      FieldsAreMade(env, w, m.fields);
    }
  }

  lemma {:induction false} FieldsAreMade(env: Env, w: Walk, fields: seq<Field>)
    requires Fair(env) && TransformFields(env, w, fields).2
    ensures forall k :: 0 <= k < |fields| ==> FieldMade(env, fields[k], TransformFields(env, w, fields).1[k])
    decreases fields
  {
    if fields != [] {
      FieldIsMade(env, w, fields[0]);
      FieldsAreMade(env, TransformField(env, w, fields[0]).0, fields[1..]);
    }
  }

  lemma {:induction false} FieldIsMade(env: Env, w: Walk, f: Field)
    requires Fair(env) && TransformField(env, w, f).2
    ensures FieldMade(env, f, TransformField(env, w, f).1)
    decreases f
  {
    match f
    case Single(p) => SingleIsList(CallCodec(env, w, [p]).1);
    case Nested(m) => MessageIsMade(env, w, m);
    case NestedList(ms) => MessagesAreMade(env, w, ms, ms, InOrder(|ms|));
      OrderCovers(InOrder(|ms|), |ms|);
    case PayloadMap(_, ps) => PayloadsAreMade(env, w, ps, ps, env.order(w.state, |ps|));
      OrderCovers(env.order(w.state, |ps|), |ps|);
    case NestedMap(_, ms) => MessagesAreMade(env, w, ms, ms, env.order(w.state, |ms|));
      OrderCovers(env.order(w.state, |ms|), |ms|);
    case _ =>
  }

  ghost function Places(order: seq<nat>): set<nat> {
    set i | i in order
  }

  /** An order visits every place. */
  lemma OrderCovers(order: seq<nat>, n: nat)
    requires IsOrder(order, n)
    ensures forall i :: 0 <= i < n ==> i in order
  {
    DistinctSize(order);
    assert Places(order) <= Below(n);
    SameSize(Places(order), Below(n));
    assert forall i :: i in Below(n) ==> i in order;
  }

  lemma SameSize(a: set<nat>, b: set<nat>)
    requires a <= b && |a| == |b|
    ensures a == b
  {
    assert b == a + (b - a);
  }

  lemma {:induction false} DistinctSize(order: seq<nat>)
    requires forall j, k :: 0 <= j < k < |order| ==> order[j] != order[k]
    ensures |Places(order)| == |order|
  {
    if order != [] {
      var init, last := order[..|order| - 1], order[|order| - 1];
      DistinctSize(init);
      assert order == init + [last];
      assert Places(order) == Places(init) + {last};
      assert forall j :: 0 <= j < |init| ==> init[j] == order[j] != last;
    }
  }

  lemma {:induction false} MessagesAreMade(env: Env, w: Walk, ms: seq<Message>, done: seq<Message>, order: seq<nat>)
    requires Fair(env) && |done| == |ms| && forall k :: 0 <= k < |order| ==> order[k] < |ms|
    requires TransformAt(env, w, ms, done, order).2
    ensures forall i :: 0 <= i < |ms| && (i in order || MessageMade(env, ms[i], done[i])) ==>
                          MessageMade(env, ms[i], TransformAt(env, w, ms, done, order).1[i])
    decreases ms, |order|
  {
    if order != [] {
      var r := TransformMessage(env, w, ms[order[0]]);
      MessageIsMade(env, w, ms[order[0]]);
      MessagesAreMade(env, r.0, ms, done[order[0] := r.1], order[1..]);
    }
  }

  lemma {:induction false} PayloadsAreMade(env: Env, w: Walk, ps: seq<Payload>, done: seq<Payload>, order: seq<nat>)
    requires |done| == |ps| && forall k :: 0 <= k < |order| ==> order[k] < |ps|
    requires TransformPayloads(env, w, ps, done, order).2
    ensures forall i :: 0 <= i < |ps| && (i in order || Makes(env, [ps[i]], [done[i]])) ==>
                          Makes(env, [ps[i]], [TransformPayloads(env, w, ps, done, order).1[i]])
    decreases |order|
  {
    if order != [] {
      var (w1, reply) := CallCodec(env, w, [ps[order[0]]]);
      SingleIsList(reply);
      PayloadsAreMade(env, w1, ps, done[order[0] := SingleReply(reply).value], order[1..]);
    }
  }

  /**
   Where a walk failed: the fields before are made, those after it are as they were, and the one that
   failed is as far as it came.
   */
  ghost predicate MessagePartly(env: Env, m1: Message, m2: Message)
    decreases m1
  {
    && !m1.isSearchAttributes && !m2.isSearchAttributes && |m2.fields| == |m1.fields|
    && exists k :: 0 <= k < |m1.fields| && FieldPartly(env, m1.fields[k], m2.fields[k])
                   && Around(env, m1.fields, m2.fields, k)
  }

  ghost predicate Around(env: Env, f1: seq<Field>, f2: seq<Field>, k: nat) {
    && k < |f1| == |f2|
    && (forall j :: 0 <= j < k ==> FieldMade(env, f1[j], f2[j]))
    && (forall j :: k < j < |f1| ==> f2[j] == f1[j])
  }

  ghost predicate FieldPartly(env: Env, f1: Field, f2: Field)
    decreases f1
  {
    match f1
    case Single(_) => f2 == f1
    case PayloadList(_) => f2 == f1
    case Nested(m) => f2.Nested? && MessagePartly(env, m, f2.message)
    case NestedList(ms) =>
      && f2.NestedList? && |f2.messages| == |ms|
      && exists k :: 0 <= k < |ms| && MessagePartly(env, ms[k], f2.messages[k]) && Others(env, ms, f2.messages, k)
    case PayloadMap(keys, ps) =>
      && f2.PayloadMap? && f2.keys == keys && |f2.payloads| == |ps|
      && forall j :: 0 <= j < |ps| ==> f2.payloads[j] == ps[j] || Makes(env, [ps[j]], [f2.payloads[j]])
    case NestedMap(keys, ms) =>
      && f2.NestedMap? && f2.keys == keys && |f2.messages| == |ms|
      && exists k :: 0 <= k < |ms| && MessagePartly(env, ms[k], f2.messages[k]) && Others(env, ms, f2.messages, k)
    case _ => false
  }

  /** Every message but `k` is made or untouched. */
  ghost predicate Others(env: Env, m1: seq<Message>, m2: seq<Message>, k: int) {
    |m2| == |m1| && forall j :: 0 <= j < |m1| && j != k ==> m2[j] == m1[j] || MessageMade(env, m1[j], m2[j])
  }

  lemma {:induction false} FailureStops(env: Env, w: Walk, m: Message)
    requires Fair(env) && !TransformMessage(env, w, m).2
    ensures MessagePartly(env, m, TransformMessage(env, w, m).1)
    decreases m
  {
    var k := FieldsStop(env, w, m.fields);
  }

  lemma {:induction false} FieldsStop(env: Env, w: Walk, fields: seq<Field>) returns (k: nat)
    requires Fair(env) && !TransformFields(env, w, fields).2
    ensures Around(env, fields, TransformFields(env, w, fields).1, k)
    ensures FieldPartly(env, fields[k], TransformFields(env, w, fields).1[k])
    decreases fields
  {
    var r := TransformField(env, w, fields[0]);
    if r.2 {
      FieldIsMade(env, w, fields[0]);
      k := FieldsStop(env, r.0, fields[1..]);
      k := k + 1;
    } else {
      FieldStops(env, w, fields[0]);
      k := 0;
    }
  }

  lemma {:induction false} FieldStops(env: Env, w: Walk, f: Field)
    requires Fair(env) && !TransformField(env, w, f).2
    ensures FieldPartly(env, f, TransformField(env, w, f).1)
    decreases f
  {
    match f
    case Single(_) =>
    case PayloadList(_) =>
    case Nested(m) => FailureStops(env, w, m);
    case NestedList(ms) => var k := MessagesStop(env, w, ms, ms, InOrder(|ms|));
    case PayloadMap(_, ps) => PayloadsStop(env, w, ps, ps, env.order(w.state, |ps|));
    case NestedMap(_, ms) => var k := MessagesStop(env, w, ms, ms, env.order(w.state, |ms|));
    case _ =>
  }

  lemma {:induction false} MessagesStop(env: Env, w: Walk, ms: seq<Message>, done: seq<Message>, order: seq<nat>)
    returns (k: nat)
    requires Fair(env) && |done| == |ms| && (forall k :: 0 <= k < |order| ==> order[k] < |ms|)
    requires Others(env, ms, done, -1) && !TransformAt(env, w, ms, done, order).2
    ensures var r := TransformAt(env, w, ms, done, order).1;
            k < |ms| && MessagePartly(env, ms[k], r[k]) && Others(env, ms, r, k)
    decreases ms, |order|
  {
    var r := TransformMessage(env, w, ms[order[0]]);
    if r.2 {
      MessageIsMade(env, w, ms[order[0]]);
      k := MessagesStop(env, r.0, ms, done[order[0] := r.1], order[1..]);
    } else {
      FailureStops(env, w, ms[order[0]]);
      k := order[0];
    }
  }

  lemma {:induction false} PayloadsStop(env: Env, w: Walk, ps: seq<Payload>, done: seq<Payload>, order: seq<nat>)
    requires |done| == |ps| && (forall k :: 0 <= k < |order| ==> order[k] < |ps|)
    requires forall j :: 0 <= j < |ps| ==> done[j] == ps[j] || Makes(env, [ps[j]], [done[j]])
    ensures var r := TransformPayloads(env, w, ps, done, order).1;
            forall j :: 0 <= j < |ps| ==> r[j] == ps[j] || Makes(env, [ps[j]], [r[j]])
    decreases |order|
  {
    if order != [] {
      var (w1, reply) := CallCodec(env, w, [ps[order[0]]]);
      if SingleReply(reply).Some? {
        SingleIsList(reply);
        PayloadsStop(env, w1, ps, done[order[0] := SingleReply(reply).value], order[1..]);
      }
    }
  }

  // ---- Round trip ----

  /**
   Decoding undoes encoding, whatever the states of the two codecs, and no batch of payloads is encoded
   as no payloads at all.
   */
  ghost predicate Undoes(dec: Env, enc: Env) {
    forall b, c: seq<Payload>, s: CodecState :: b != [] && Makes(enc, b, c) ==>
      c != [] && ListReply(dec.transform(s, c).1) == Some(b)
  }

  lemma {:induction false} MessageRestored(enc: Env, dec: Env, w: Walk, m1: Message, m2: Message)
    requires Fair(dec) && Undoes(dec, enc) && MessageMade(enc, m1, m2)
    ensures TransformMessage(dec, w, m2).1 == m1 && TransformMessage(dec, w, m2).2
    decreases m1
  {
    if !m1.isSearchAttributes {
      FieldsRestored(enc, dec, w, m1.fields, m2.fields);
    }
  }

  lemma {:induction false} FieldsRestored(enc: Env, dec: Env, w: Walk, f1: seq<Field>, f2: seq<Field>)
    requires Fair(dec) && Undoes(dec, enc) && |f1| == |f2|
    requires forall k :: 0 <= k < |f1| ==> FieldMade(enc, f1[k], f2[k])
    ensures TransformFields(dec, w, f2).1 == f1 && TransformFields(dec, w, f2).2
    decreases f1
  {
    if f1 != [] {
      FieldRestored(enc, dec, w, f1[0], f2[0]);
      FieldsRestored(enc, dec, TransformField(dec, w, f2[0]).0, f1[1..], f2[1..]);
    }
  }

  lemma {:induction false} FieldRestored(enc: Env, dec: Env, w: Walk, f1: Field, f2: Field)
    requires Fair(dec) && Undoes(dec, enc) && FieldMade(enc, f1, f2)
    ensures TransformField(dec, w, f2).1 == f1 && TransformField(dec, w, f2).2
    decreases f1
  {
    match f1
    case Single(p) => SingleIsList(dec.transform(w.state, [f2.payload]).1);
    case PayloadList(ps) =>
      if ps != [] {
        assert ListReply(dec.transform(w.state, f2.payloads).1) == Some(ps);
      }
    case Nested(m) => MessageRestored(enc, dec, w, m, f2.message);
    case NestedList(ms) =>
      MessagesRestored(enc, dec, w, ms, f2.messages, f2.messages, InOrder(|ms|));
      OrderCovers(InOrder(|ms|), |ms|);
      assert TransformField(dec, w, f2).1.messages == ms;
    case PayloadMap(_, ps) =>
      PayloadsRestored(enc, dec, w, ps, f2.payloads, f2.payloads, dec.order(w.state, |ps|));
      OrderCovers(dec.order(w.state, |ps|), |ps|);
      assert TransformField(dec, w, f2).1.payloads == ps;
    case NestedMap(_, ms) =>
      MessagesRestored(enc, dec, w, ms, f2.messages, f2.messages, dec.order(w.state, |ms|));
      OrderCovers(dec.order(w.state, |ms|), |ms|);
      assert TransformField(dec, w, f2).1.messages == ms;
    case _ =>
  }

  lemma {:induction false} MessagesRestored(
      enc: Env, dec: Env, w: Walk, m1: seq<Message>, m2: seq<Message>, done: seq<Message>, order: seq<nat>)
    requires Fair(dec) && Undoes(dec, enc) && |m1| == |m2| == |done|
    requires forall k :: 0 <= k < |m1| ==> MessageMade(enc, m1[k], m2[k])
    requires forall k :: 0 <= k < |order| ==> order[k] < |m1|
    ensures TransformAt(dec, w, m2, done, order).2
    ensures forall i :: 0 <= i < |m1| && (i in order || done[i] == m1[i]) ==>
                          TransformAt(dec, w, m2, done, order).1[i] == m1[i]
    decreases m1, |order|
  {
    if order != [] {
      var i := order[0];
      MessageRestored(enc, dec, w, m1[i], m2[i]);
      var r := TransformMessage(dec, w, m2[i]);
      MessagesRestored(enc, dec, r.0, m1, m2, done[i := r.1], order[1..]);
    }
  }

  lemma {:induction false} PayloadsRestored(
      enc: Env, dec: Env, w: Walk, p1: seq<Payload>, p2: seq<Payload>, done: seq<Payload>, order: seq<nat>)
    requires Undoes(dec, enc) && |p1| == |p2| == |done|
    requires forall k :: 0 <= k < |p1| ==> Makes(enc, [p1[k]], [p2[k]])
    requires forall k :: 0 <= k < |order| ==> order[k] < |p1|
    ensures TransformPayloads(dec, w, p2, done, order).2
    ensures forall i :: 0 <= i < |p1| && (i in order || done[i] == p1[i]) ==>
                          TransformPayloads(dec, w, p2, done, order).1[i] == p1[i]
    decreases |order|
  {
    if order != [] {
      var i := order[0];
      var (w1, reply) := CallCodec(dec, w, [p2[i]]);
      assert Makes(enc, [p1[i]], [p2[i]]);
      SingleIsList(reply);
      PayloadsRestored(enc, dec, w1, p1, p2, done[i := SingleReply(reply).value], order[1..]);
    }
  }

  /** Decoding whatever encoding has made of a message restores the message. */
  lemma RoundTrip(enc: Env, dec: Env, w1: Walk, w2: Walk, m: Message)
    requires Fair(enc) && Fair(dec) && Undoes(dec, enc) && TransformMessage(enc, w1, m).2
    ensures var r := TransformMessage(dec, w2, TransformMessage(enc, w1, m).1); r.1 == m && r.2
  {
    MessageIsMade(enc, w1, m);
    MessageRestored(enc, dec, w2, m, TransformMessage(enc, w1, m).1);
  }

  /** The codec never fails, returns no nil payload, and keeps a single payload single. */
  ghost predicate Reliable(env: Env) {
    forall s: CodecState, b: seq<Payload> :: b != [] ==>
      var c := ListReply(env.transform(s, b).1);
      c.Some? && (|b| == 1 ==> |c.value| == 1)
  }

  lemma {:induction false} MessageSucceeds(env: Env, w: Walk, m: Message)
    requires Fair(env) && Reliable(env)
    ensures TransformMessage(env, w, m).2
    decreases m
  {
    if !m.isSearchAttributes {
      FieldsSucceed(env, w, m.fields);
    }
  }

  lemma {:induction false} FieldsSucceed(env: Env, w: Walk, fields: seq<Field>)
    requires Fair(env) && Reliable(env)
    ensures TransformFields(env, w, fields).2
    decreases fields
  {
    if fields != [] {
      FieldSucceeds(env, w, fields[0]);
      FieldsSucceed(env, TransformField(env, w, fields[0]).0, fields[1..]);
    }
  }

  lemma {:induction false} FieldSucceeds(env: Env, w: Walk, f: Field)
    requires Fair(env) && Reliable(env)
    ensures TransformField(env, w, f).2
    decreases f
  {
    match f
    case Single(p) => SingleIsList(env.transform(w.state, [p]).1);
    case Nested(m) => MessageSucceeds(env, w, m);
    case NestedList(ms) => MessagesSucceed(env, w, ms, ms, InOrder(|ms|));
    case PayloadMap(_, ps) => PayloadsSucceed(env, w, ps, ps, env.order(w.state, |ps|));
    case NestedMap(_, ms) => MessagesSucceed(env, w, ms, ms, env.order(w.state, |ms|));
    case _ =>
  }

  lemma {:induction false} MessagesSucceed(env: Env, w: Walk, ms: seq<Message>, done: seq<Message>, order: seq<nat>)
    requires Fair(env) && Reliable(env) && |done| == |ms| && forall k :: 0 <= k < |order| ==> order[k] < |ms|
    ensures TransformAt(env, w, ms, done, order).2
    decreases ms, |order|
  {
    if order != [] {
      MessageSucceeds(env, w, ms[order[0]]);
      var r := TransformMessage(env, w, ms[order[0]]);
      MessagesSucceed(env, r.0, ms, done[order[0] := r.1], order[1..]);
    }
  }

  lemma {:induction false} PayloadsSucceed(env: Env, w: Walk, ps: seq<Payload>, done: seq<Payload>, order: seq<nat>)
    requires Reliable(env) && |done| == |ps| && forall k :: 0 <= k < |order| ==> order[k] < |ps|
    ensures TransformPayloads(env, w, ps, done, order).2
    decreases |order|
  {
    if order != [] {
      var (w1, reply) := CallCodec(env, w, [ps[order[0]]]);
      SingleIsList(reply);
      PayloadsSucceed(env, w1, ps, done[order[0] := SingleReply(reply).value], order[1..]);
    }
  }

  /** With a codec that never fails, encoding and decoding restores every message. */
  lemma EveryMessageRoundTrips(enc: Env, dec: Env, w1: Walk, w2: Walk, m: Message)
    requires Fair(enc) && Fair(dec) && Undoes(dec, enc) && Reliable(enc)
    ensures TransformMessage(enc, w1, m).2
    ensures var r := TransformMessage(dec, w2, TransformMessage(enc, w1, m).1); r.1 == m && r.2
  {
    MessageSucceeds(enc, w1, m);
    RoundTrip(enc, dec, w1, w2, m);
  }

  // ---- Each payload field is transformed once, as one batch ----

  /** The batches of a message: a payload list is one, every other payload is one of its own. */
  function MessageBatches(m: Message): multiset<seq<Payload>>
    decreases m
  {
    if m.isSearchAttributes then multiset{} else FieldsBatches(m.fields)
  }

  function FieldsBatches(fields: seq<Field>): multiset<seq<Payload>>
    decreases fields
  {
    if fields == [] then multiset{} else FieldBatches(fields[0]) + FieldsBatches(fields[1..])
  }

  function FieldBatches(f: Field): multiset<seq<Payload>>
    decreases f
  {
    match f
    case Absent => multiset{}
    case Scalar(_) => multiset{}
    case Single(p) => multiset{[p]}
    case PayloadList(ps) => if ps == [] then multiset{} else multiset{ps}
    case Nested(m) => MessageBatches(m)
    case NestedList(ms) => Total(EachBatches(ms), InOrder(|ms|))
    case PayloadMap(_, ps) => Total(OwnBatches(ps), InOrder(|ps|))
    case NestedMap(_, ms) => Total(EachBatches(ms), InOrder(|ms|))
  }

  function EachBatches(ms: seq<Message>): (bs: seq<multiset<seq<Payload>>>)
    ensures |bs| == |ms|
    decreases ms
  {
    seq(|ms|, k requires 0 <= k < |ms| => MessageBatches(ms[k]))
  }

  function OwnBatches(ps: seq<Payload>): (bs: seq<multiset<seq<Payload>>>)
    ensures |bs| == |ps|
  {
    seq(|ps|, k requires 0 <= k < |ps| => multiset{[ps[k]]})
  }

  function Total(bs: seq<multiset<seq<Payload>>>, order: seq<nat>): multiset<seq<Payload>>
    requires forall k :: 0 <= k < |order| ==> order[k] < |bs|
    decreases |order|
  {
    if order == [] then multiset{} else bs[order[0]] + Total(bs, order[1..])
  }

  lemma {:induction false} TotalWithout(bs: seq<multiset<seq<Payload>>>, order: seq<nat>, k: nat)
    requires k < |order| && forall j :: 0 <= j < |order| ==> order[j] < |bs|
    ensures Total(bs, order) == bs[order[k]] + Total(bs, order[..k] + order[k + 1..])
  {
    var rest := order[..k] + order[k + 1..];
    if k == 0 {
      assert rest == order[1..];
    } else {
      assert order[1..][..k - 1] + order[1..][k..] == rest[1..];
      TotalWithout(bs, order[1..], k - 1);
      assert rest[0] == order[0];
    }
  }

  /** The total does not depend on the order. */
  lemma {:induction false} TotalOfOrder(bs: seq<multiset<seq<Payload>>>, a: seq<nat>, b: seq<nat>)
    requires |a| == |b| && (forall k :: 0 <= k < |a| ==> a[k] < |bs| && b[k] < |bs|)
    requires forall j, k :: 0 <= j < k < |a| ==> a[j] != a[k]
    requires forall i :: i in a <==> i in b
    requires forall j, k :: 0 <= j < k < |b| ==> b[j] != b[k]
    ensures Total(bs, a) == Total(bs, b)
    decreases |a|
  {
    if a != [] {
      assert a[0] in b;
      var k :| 0 <= k < |b| && b[k] == a[0];
      var rest := b[..k] + b[k + 1..];
      TotalWithout(bs, b, k);
      forall i
        ensures i in a[1..] <==> i in rest
      {
        assert i in a <==> i == a[0] || i in a[1..];
        assert i in b <==> i == b[k] || i in rest;
      }
      TotalOfOrder(bs, a[1..], rest);
    }
  }

  lemma OrderTotals(bs: seq<multiset<seq<Payload>>>, order: seq<nat>)
    requires IsOrder(order, |bs|)
    ensures Total(bs, order) == Total(bs, InOrder(|bs|))
  {
    OrderCovers(order, |bs|);
    OrderCovers(InOrder(|bs|), |bs|);
    assert forall i :: i in order ==> i < |bs|;
    assert forall i :: i in InOrder(|bs|) ==> i < |bs|;
    TotalOfOrder(bs, order, InOrder(|bs|));
  }

  /** The codec was given these batches, or some of them when the walk failed. */
  ghost predicate Gave(w1: Walk, w2: Walk, batches: multiset<seq<Payload>>, ok: bool) {
    && multiset(w2.log) <= multiset(w1.log) + batches
    && (ok ==> multiset(w2.log) == multiset(w1.log) + batches)
  }

  /**
   A walk that goes through gives the codec every payload field outside search attributes exactly once,
   as one batch; a walk that fails gives none of them twice.
   */
  lemma {:induction false} TransformedOnce(env: Env, w: Walk, m: Message)
    requires Fair(env)
    ensures Gave(w, TransformMessage(env, w, m).0, MessageBatches(m), TransformMessage(env, w, m).2)
    decreases m
  {
    if !m.isSearchAttributes {
      FieldsOnce(env, w, m.fields);
    }
  }

  lemma {:induction false} FieldsOnce(env: Env, w: Walk, fields: seq<Field>)
    requires Fair(env)
    ensures Gave(w, TransformFields(env, w, fields).0, FieldsBatches(fields), TransformFields(env, w, fields).2)
    decreases fields
  {
    if fields != [] {
      FieldOnce(env, w, fields[0]);
      FieldsOnce(env, TransformField(env, w, fields[0]).0, fields[1..]);
    }
  }

  lemma {:induction false} FieldOnce(env: Env, w: Walk, f: Field)
    requires Fair(env)
    ensures Gave(w, TransformField(env, w, f).0, FieldBatches(f), TransformField(env, w, f).2)
    decreases f
  {
    match f
    case Nested(m) => TransformedOnce(env, w, m);
    case NestedList(ms) => MessagesOnce(env, w, ms, ms, InOrder(|ms|));
    case PayloadMap(_, ps) =>
      PayloadsOnce(env, w, ps, ps, env.order(w.state, |ps|));
      OrderTotals(OwnBatches(ps), env.order(w.state, |ps|));
    case NestedMap(_, ms) =>
      MessagesOnce(env, w, ms, ms, env.order(w.state, |ms|));
      OrderTotals(EachBatches(ms), env.order(w.state, |ms|));
    case _ =>
  }

  lemma {:induction false} MessagesOnce(env: Env, w: Walk, ms: seq<Message>, done: seq<Message>, order: seq<nat>)
    requires Fair(env) && |done| == |ms| && forall k :: 0 <= k < |order| ==> order[k] < |ms|
    ensures var r := TransformAt(env, w, ms, done, order); Gave(w, r.0, Total(EachBatches(ms), order), r.2)
    decreases ms, |order|
  {
    if order != [] {
      TransformedOnce(env, w, ms[order[0]]);
      var r := TransformMessage(env, w, ms[order[0]]);
      MessagesOnce(env, r.0, ms, done[order[0] := r.1], order[1..]);
    }
  }

  lemma {:induction false} PayloadsOnce(env: Env, w: Walk, ps: seq<Payload>, done: seq<Payload>, order: seq<nat>)
    requires |done| == |ps| && forall k :: 0 <= k < |order| ==> order[k] < |ps|
    ensures var r := TransformPayloads(env, w, ps, done, order); Gave(w, r.0, Total(OwnBatches(ps), order), r.2)
    decreases |order|
  {
    if order != [] {
      var (w1, reply) := CallCodec(env, w, [ps[order[0]]]);
      if SingleReply(reply).Some? {
        PayloadsOnce(env, w1, ps, done[order[0] := SingleReply(reply).value], order[1..]);
      }
    }
  }

  // ---- The codec's own state ----

  /** The codec after it was called with these batches, one after the other. */
  function CodecAfter(env: Env, state: CodecState, batches: seq<seq<Payload>>): CodecState
    decreases |batches|
  {
    if batches == [] then state else CodecAfter(env, env.transform(state, batches[0]).0, batches[1..])
  }

  lemma {:induction false} CodecAfterBoth(env: Env, state: CodecState, a: seq<seq<Payload>>, b: seq<seq<Payload>>)
    ensures CodecAfter(env, state, a + b) == CodecAfter(env, CodecAfter(env, state, a), b)
    decreases |a|
  {
    if a == [] {
      assert a + b == b;
    } else {
      assert (a + b)[1..] == a[1..] + b;
      CodecAfterBoth(env, env.transform(state, a[0]).0, a[1..], b);
    }
  }

  /** The codec was called with the batches that were added to the log, and nothing else moved it. */
  ghost predicate Called(env: Env, w1: Walk, w2: Walk) {
    exists batches :: w2.log == w1.log + batches && w2.state == CodecAfter(env, w1.state, batches)
  }

  lemma CalledNot(env: Env, w: Walk)
    ensures Called(env, w, w)
  {
    assert w.log == w.log + [] && w.state == CodecAfter(env, w.state, []);
  }

  lemma CalledOnce(env: Env, w: Walk, batch: seq<Payload>)
    ensures Called(env, w, CallCodec(env, w, batch).0)
  {
    assert [batch][1..] == [];
    assert CallCodec(env, w, batch).0.state == CodecAfter(env, w.state, [batch]);
  }

  lemma CalledTwice(env: Env, w1: Walk, w2: Walk, w3: Walk)
    requires Called(env, w1, w2) && Called(env, w2, w3)
    ensures Called(env, w1, w3)
  {
    var a :| w2.log == w1.log + a && w2.state == CodecAfter(env, w1.state, a);
    var b :| w3.log == w2.log + b && w3.state == CodecAfter(env, w2.state, b);
    CodecAfterBoth(env, w1.state, a, b);
    assert w3.log == w1.log + (a + b);
  }

  /** A walk hands the state of the codec from each call to the next, also when it fails. */
  lemma {:induction false} WalkCalls(env: Env, w: Walk, m: Message)
    requires Fair(env)
    ensures Called(env, w, TransformMessage(env, w, m).0)
    decreases m
  {
    if m.isSearchAttributes {
      CalledNot(env, w);
    } else {
      FieldsCall(env, w, m.fields);
    }
  }

  lemma {:induction false} FieldsCall(env: Env, w: Walk, fields: seq<Field>)
    requires Fair(env)
    ensures Called(env, w, TransformFields(env, w, fields).0)
    decreases fields
  {
    CalledNot(env, w);
    if fields != [] {
      FieldCalls(env, w, fields[0]);
      var r := TransformField(env, w, fields[0]);
      if r.2 {
        FieldsCall(env, r.0, fields[1..]);
        CalledTwice(env, w, r.0, TransformFields(env, r.0, fields[1..]).0);
      }
    }
  }

  lemma {:induction false} FieldCalls(env: Env, w: Walk, f: Field)
    requires Fair(env)
    ensures Called(env, w, TransformField(env, w, f).0)
    decreases f
  {
    CalledNot(env, w);
    match f
    case Single(p) => CalledOnce(env, w, [p]);
    case PayloadList(ps) => CalledOnce(env, w, ps);
    case Nested(m) => WalkCalls(env, w, m);
    case NestedList(ms) => MessagesCall(env, w, ms, ms, InOrder(|ms|));
    case PayloadMap(_, ps) => PayloadsCall(env, w, ps, ps, env.order(w.state, |ps|));
    case NestedMap(_, ms) => MessagesCall(env, w, ms, ms, env.order(w.state, |ms|));
    case _ =>
  }

  lemma {:induction false} MessagesCall(env: Env, w: Walk, ms: seq<Message>, done: seq<Message>, order: seq<nat>)
    requires Fair(env) && |done| == |ms| && forall k :: 0 <= k < |order| ==> order[k] < |ms|
    ensures Called(env, w, TransformAt(env, w, ms, done, order).0)
    decreases ms, |order|
  {
    CalledNot(env, w);
    if order != [] {
      WalkCalls(env, w, ms[order[0]]);
      var r := TransformMessage(env, w, ms[order[0]]);
      if r.2 {
        MessagesCall(env, r.0, ms, done[order[0] := r.1], order[1..]);
        CalledTwice(env, w, r.0, TransformAt(env, r.0, ms, done[order[0] := r.1], order[1..]).0);
      }
    }
  }

  lemma {:induction false} PayloadsCall(env: Env, w: Walk, ps: seq<Payload>, done: seq<Payload>, order: seq<nat>)
    requires |done| == |ps| && forall k :: 0 <= k < |order| ==> order[k] < |ps|
    ensures Called(env, w, TransformPayloads(env, w, ps, done, order).0)
    decreases |order|
  {
    CalledNot(env, w);
    if order != [] {
      var (w1, reply) := CallCodec(env, w, [ps[order[0]]]);
      CalledOnce(env, w, [ps[order[0]]]);
      if SingleReply(reply).Some? {
        var next := done[order[0] := SingleReply(reply).value];
        PayloadsCall(env, w1, ps, next, order[1..]);
        CalledTwice(env, w, w1, TransformPayloads(env, w1, ps, next, order[1..]).0);
      }
    }
  }

  // ---- A codec without state ----

  type Plain = seq<Payload> -> Reply

  /** What a codec without state makes of a message: no walk and no order. */
  function PlainMessage(f: Plain, m: Message): Option<Message>
    decreases m
  {
    if m.isSearchAttributes then Some(m)
    else
      var fields := PlainFields(f, m.fields);
      if fields == None then None else Some(m.(fields := fields.value))
  }

  function PlainFields(f: Plain, fields: seq<Field>): (r: Option<seq<Field>>)
    ensures r.Some? ==> |r.value| == |fields|
    decreases fields
  {
    if fields == [] then Some([])
    else
      var first, rest := PlainField(f, fields[0]), PlainFields(f, fields[1..]);
      if first == None || rest == None then None else Some([first.value] + rest.value)
  }

  function PlainField(f: Plain, field: Field): Option<Field>
    decreases field
  {
    match field
    case Absent => Some(field)
    case Scalar(_) => Some(field)
    case Single(p) =>
      var r := SingleReply(f([p]));
      if r == None then None else Some(Single(r.value))
    case PayloadList(ps) =>
      var r := ListReply(f(ps));
      if ps == [] then Some(field) else if r == None then None else Some(PayloadList(r.value))
    case Nested(m) =>
      var r := PlainMessage(f, m);
      if r == None then None else Some(Nested(r.value))
    case NestedList(ms) =>
      var r := PlainMessages(f, ms);
      if r == None then None else Some(NestedList(r.value))
    case PayloadMap(keys, ps) =>
      var r := PlainPayloads(f, ps);
      if r == None then None else Some(PayloadMap(keys, r.value))
    case NestedMap(keys, ms) =>
      var r := PlainMessages(f, ms);
      if r == None then None else Some(NestedMap(keys, r.value))
  }

  function PlainMessages(f: Plain, ms: seq<Message>): (r: Option<seq<Message>>)
    ensures r.Some? ==> |r.value| == |ms|
    decreases ms
  {
    if ms == [] then Some([])
    else
      var first, rest := PlainMessage(f, ms[0]), PlainMessages(f, ms[1..]);
      if first == None || rest == None then None else Some([first.value] + rest.value)
  }

  function PlainPayloads(f: Plain, ps: seq<Payload>): (r: Option<seq<Payload>>)
    ensures r.Some? ==> |r.value| == |ps|
    decreases ps
  {
    if ps == [] then Some([])
    else
      var first, rest := SingleReply(f([ps[0]])), PlainPayloads(f, ps[1..]);
      if first == None || rest == None then None else Some([first.value] + rest.value)
  }

  lemma {:induction false} PlainMessagesAre(f: Plain, ms: seq<Message>)
    ensures PlainMessages(f, ms).Some? <==> forall k :: 0 <= k < |ms| ==> PlainMessage(f, ms[k]).Some?
    ensures PlainMessages(f, ms).Some? ==>
              forall k :: 0 <= k < |ms| ==> PlainMessage(f, ms[k]) == Some(PlainMessages(f, ms).value[k])
    decreases ms
  {
    if ms != [] {
      PlainMessagesAre(f, ms[1..]);
      assert forall k :: 0 < k < |ms| ==> ms[k] == ms[1..][k - 1];
    }
  }

  lemma {:induction false} PlainPayloadsAre(f: Plain, ps: seq<Payload>)
    ensures PlainPayloads(f, ps).Some? <==> forall k :: 0 <= k < |ps| ==> SingleReply(f([ps[k]])).Some?
    ensures PlainPayloads(f, ps).Some? ==>
              forall k :: 0 <= k < |ps| ==> SingleReply(f([ps[k]])) == Some(PlainPayloads(f, ps).value[k])
    decreases ps
  {
    if ps != [] {
      PlainPayloadsAre(f, ps[1..]);
      assert forall k :: 0 < k < |ps| ==> ps[k] == ps[1..][k - 1];
    }
  }

  ghost predicate Stateless(env: Env, f: Plain) {
    forall s: CodecState, b: seq<Payload> :: env.transform(s, b).1 == f(b)
  }

  /** The walk computes the plain form: it succeeds for the same messages, with the same result. */
  lemma {:induction false} WalkIsPlain(env: Env, f: Plain, w: Walk, m: Message)
    requires Fair(env) && Stateless(env, f)
    ensures TransformMessage(env, w, m).2 <==> PlainMessage(f, m).Some?
    ensures PlainMessage(f, m).Some? ==> TransformMessage(env, w, m).1 == PlainMessage(f, m).value
    decreases m
  {
    if !m.isSearchAttributes {
      FieldsArePlain(env, f, w, m.fields);
    }
  }

  lemma {:induction false} FieldsArePlain(env: Env, f: Plain, w: Walk, fields: seq<Field>)
    requires Fair(env) && Stateless(env, f)
    ensures TransformFields(env, w, fields).2 <==> PlainFields(f, fields).Some?
    ensures PlainFields(f, fields).Some? ==> TransformFields(env, w, fields).1 == PlainFields(f, fields).value
    decreases fields
  {
    if fields != [] {
      FieldIsPlain(env, f, w, fields[0]);
      FieldsArePlain(env, f, TransformField(env, w, fields[0]).0, fields[1..]);
    }
  }

  lemma {:induction false} FieldIsPlain(env: Env, f: Plain, w: Walk, field: Field)
    requires Fair(env) && Stateless(env, f)
    ensures TransformField(env, w, field).2 <==> PlainField(f, field).Some?
    ensures PlainField(f, field).Some? ==> TransformField(env, w, field).1 == PlainField(f, field).value
    decreases field
  {
    match field
    case Nested(m) => WalkIsPlain(env, f, w, m);
    case NestedList(ms) => AllArePlain(env, f, w, ms, InOrder(|ms|));
    case PayloadMap(_, ps) => AllPayloadsArePlain(env, f, w, ps, env.order(w.state, |ps|));
    case NestedMap(_, ms) => AllArePlain(env, f, w, ms, env.order(w.state, |ms|));
    case _ =>
  }

  lemma {:induction false} AllArePlain(env: Env, f: Plain, w: Walk, ms: seq<Message>, order: seq<nat>)
    requires Fair(env) && Stateless(env, f) && IsOrder(order, |ms|)
    ensures TransformAt(env, w, ms, ms, order).2 <==> PlainMessages(f, ms).Some?
    ensures PlainMessages(f, ms).Some? ==> TransformAt(env, w, ms, ms, order).1 == PlainMessages(f, ms).value
    decreases ms, |order| + 1
  {
    PlacesArePlain(env, f, w, ms, ms, order);
    OrderCovers(order, |ms|);
    PlainMessagesAre(f, ms);
    if PlainMessages(f, ms).Some? {
      assert TransformAt(env, w, ms, ms, order).1 == PlainMessages(f, ms).value;
    }
  }

  lemma {:induction false} PlacesArePlain(
      env: Env, f: Plain, w: Walk, ms: seq<Message>, done: seq<Message>, order: seq<nat>)
    requires Fair(env) && Stateless(env, f) && |done| == |ms| && forall k :: 0 <= k < |order| ==> order[k] < |ms|
    ensures var r := TransformAt(env, w, ms, done, order);
            && (r.2 <==> forall k :: 0 <= k < |order| ==> PlainMessage(f, ms[order[k]]).Some?)
            && (r.2 ==> forall i :: 0 <= i < |ms| && (i in order || Some(done[i]) == PlainMessage(f, ms[i])) ==>
                          Some(r.1[i]) == PlainMessage(f, ms[i]))
    decreases ms, |order|
  {
    if order != [] {
      WalkIsPlain(env, f, w, ms[order[0]]);
      var r := TransformMessage(env, w, ms[order[0]]);
      PlacesArePlain(env, f, r.0, ms, done[order[0] := r.1], order[1..]);
      assert forall k :: 0 < k < |order| ==> order[k] == order[1..][k - 1];
    }
  }

  lemma AllPayloadsArePlain(env: Env, f: Plain, w: Walk, ps: seq<Payload>, order: seq<nat>)
    requires Stateless(env, f) && IsOrder(order, |ps|)
    ensures TransformPayloads(env, w, ps, ps, order).2 <==> PlainPayloads(f, ps).Some?
    ensures PlainPayloads(f, ps).Some? ==> TransformPayloads(env, w, ps, ps, order).1 == PlainPayloads(f, ps).value
  {
    PayloadPlacesArePlain(env, f, w, ps, ps, order);
    OrderCovers(order, |ps|);
    PlainPayloadsAre(f, ps);
    if PlainPayloads(f, ps).Some? {
      assert TransformPayloads(env, w, ps, ps, order).1 == PlainPayloads(f, ps).value;
    }
  }

  lemma {:induction false} PayloadPlacesArePlain(
      env: Env, f: Plain, w: Walk, ps: seq<Payload>, done: seq<Payload>, order: seq<nat>)
    requires Stateless(env, f) && |done| == |ps| && forall k :: 0 <= k < |order| ==> order[k] < |ps|
    ensures var r := TransformPayloads(env, w, ps, done, order);
            && (r.2 <==> forall k :: 0 <= k < |order| ==> SingleReply(f([ps[order[k]]])).Some?)
            && (r.2 ==> forall i :: 0 <= i < |ps| && (i in order || Some(done[i]) == SingleReply(f([ps[i]]))) ==>
                          Some(r.1[i]) == SingleReply(f([ps[i]])))
    decreases |order|
  {
    if order != [] {
      var (w1, reply) := CallCodec(env, w, [ps[order[0]]]);
      if SingleReply(reply).Some? {
        PayloadPlacesArePlain(env, f, w1, ps, done[order[0] := SingleReply(reply).value], order[1..]);
      }
      assert forall k :: 0 < k < |order| ==> order[k] == order[1..][k - 1];
    }
  }

  /** With a codec without state the result does not depend on the order in which maps are visited. */
  lemma MapOrderDoesNotMatter(env1: Env, env2: Env, f: Plain, w1: Walk, w2: Walk, m: Message)
    requires Fair(env1) && Fair(env2) && Stateless(env1, f) && Stateless(env2, f)
    ensures TransformMessage(env1, w1, m).2 == TransformMessage(env2, w2, m).2
    ensures TransformMessage(env1, w1, m).2 ==> TransformMessage(env1, w1, m).1 == TransformMessage(env2, w2, m).1
  {
    WalkIsPlain(env1, f, w1, m);
    WalkIsPlain(env2, f, w2, m);
  }

  // ---- Exactly when the round trip works ----

  /** No payload list outside search attributes is encoded as an empty list. */
  predicate NothingVanishes(f: Plain, m: Message)
    decreases m
  {
    m.isSearchAttributes || forall k :: 0 <= k < |m.fields| ==> FieldStays(f, m.fields[k])
  }

  predicate FieldStays(f: Plain, field: Field)
    decreases field
  {
    match field
    case PayloadList(ps) => ps == [] || ListReply(f(ps)) != Some([])
    case Nested(m) => NothingVanishes(f, m)
    case NestedList(ms) => forall k :: 0 <= k < |ms| ==> NothingVanishes(f, ms[k])
    case NestedMap(_, ms) => forall k :: 0 <= k < |ms| ==> NothingVanishes(f, ms[k])
    case _ => true
  }

  /** `g` undoes `f` wherever `f` leaves something to undo. */
  ghost predicate Inverts(g: Plain, f: Plain) {
    forall b, c: seq<Payload> :: b != [] && c != [] && ListReply(f(b)) == Some(c) ==> ListReply(g(c)) == Some(b)
  }

  /**
   An empty list counts as an unset field and is not decoded. So the round trip restores a message that
   could be encoded exactly when the codec encodes none of its payload lists as an empty list.
   */
  lemma {:induction false} RoundTripExactly(f: Plain, g: Plain, m: Message)
    requires Inverts(g, f) && PlainMessage(f, m).Some?
    ensures PlainMessage(g, PlainMessage(f, m).value) == Some(m) <==> NothingVanishes(f, m)
    decreases m
  {
    if !m.isSearchAttributes {
      FieldsExactly(f, g, m.fields);
    }
  }

  lemma {:induction false} FieldsExactly(f: Plain, g: Plain, fields: seq<Field>)
    requires Inverts(g, f) && PlainFields(f, fields).Some?
    ensures PlainFields(g, PlainFields(f, fields).value) == Some(fields)
            <==> forall k :: 0 <= k < |fields| ==> FieldStays(f, fields[k])
    decreases fields
  {
    if fields != [] {
      FieldExactly(f, g, fields[0]);
      FieldsExactly(f, g, fields[1..]);
      var there := PlainFields(f, fields).value;
      assert there[1..] == PlainFields(f, fields[1..]).value;
      assert fields == [fields[0]] + fields[1..];
      assert forall k :: 0 < k < |fields| ==> fields[k] == fields[1..][k - 1];
    }
  }

  lemma {:induction false} FieldExactly(f: Plain, g: Plain, field: Field)
    requires Inverts(g, f) && PlainField(f, field).Some?
    ensures PlainField(g, PlainField(f, field).value) == Some(field) <==> FieldStays(f, field)
    decreases field
  {
    match field
    case Single(p) => SingleBack(f, g, p);
    case Nested(m) => RoundTripExactly(f, g, m);
    case NestedList(ms) => MessagesExactly(f, g, ms);
    case PayloadMap(_, ps) => PayloadsBack(f, g, ps);
    case NestedMap(_, ms) => MessagesExactly(f, g, ms);
    case _ =>
  }

  lemma {:induction false} MessagesExactly(f: Plain, g: Plain, ms: seq<Message>)
    requires Inverts(g, f) && PlainMessages(f, ms).Some?
    ensures PlainMessages(g, PlainMessages(f, ms).value) == Some(ms)
            <==> forall k :: 0 <= k < |ms| ==> NothingVanishes(f, ms[k])
    decreases ms
  {
    if ms != [] {
      RoundTripExactly(f, g, ms[0]);
      MessagesExactly(f, g, ms[1..]);
      var there := PlainMessages(f, ms).value;
      assert there[1..] == PlainMessages(f, ms[1..]).value;
      assert ms == [ms[0]] + ms[1..];
      assert forall k :: 0 < k < |ms| ==> ms[k] == ms[1..][k - 1];
    }
  }

  lemma SingleBack(f: Plain, g: Plain, p: Payload)
    requires Inverts(g, f) && SingleReply(f([p])).Some?
    ensures SingleReply(g([SingleReply(f([p])).value])) == Some(p)
  {
    var q := SingleReply(f([p])).value;
    SingleIsList(f([p]));
    assert ListReply(g([q])) == Some([p]);
    SingleIsList(g([q]));
  }

  lemma {:induction false} PayloadsBack(f: Plain, g: Plain, ps: seq<Payload>)
    requires Inverts(g, f) && PlainPayloads(f, ps).Some?
    ensures PlainPayloads(g, PlainPayloads(f, ps).value) == Some(ps)
    decreases ps
  {
    if ps != [] {
      var first, rest := SingleReply(f([ps[0]])).value, PlainPayloads(f, ps[1..]).value;
      SingleBack(f, g, ps[0]);
      PayloadsBack(f, g, ps[1..]);
      PlainCons(g, first, rest);
      assert [ps[0]] + ps[1..] == ps;
    }
  }

  lemma PlainCons(g: Plain, first: Payload, rest: seq<Payload>)
    requires SingleReply(g([first])).Some? && PlainPayloads(g, rest).Some?
    ensures PlainPayloads(g, [first] + rest)
            == Some([SingleReply(g([first])).value] + PlainPayloads(g, rest).value)
  {
    assert ([first] + rest)[1..] == rest;
  }

  // ---- The walk as loops ----

  /**
   The walk with its loops, over one message at a time. The codec is called for its effect on `state`;
   `log` records the batches it was given.
   */
  class Walker {
    const env: Env
    var state: CodecState
    ghost var log: seq<seq<Payload>>

    ghost function At(): Walk
      reads this
    {
      Walk(state, log)
    }

    constructor (env: Env, state: CodecState)
      ensures this.env == env && At() == Walk(state, [])
    {
      this.env, this.state, log := env, state, [];
    }

    method Transform(batch: seq<Payload>) returns (reply: Reply)
      modifies this
      ensures (At(), reply) == CallCodec(env, old(At()), batch)
    {
      var r := env.transform(state, batch);
      state, reply := r.0, r.1;
      log := log + [batch];
    }

    /** None when the codec failed or returned a nil payload. */
    method TransformPayloadList(payloads: seq<Payload>) returns (converted: Option<seq<Payload>>)
      modifies this
      ensures At() == CallCodec(env, old(At()), payloads).0
      ensures converted == ListReply(CallCodec(env, old(At()), payloads).1)
    {
      var reply := Transform(payloads);
      if reply == Failed {
        return None;
      }
      PresentIs(reply.payloads);
      var list := [];
      for k := 0 to |reply.payloads|
        invariant |list| == k && forall j :: 0 <= j < k ==> reply.payloads[j] == Some(list[j])
      {
        if reply.payloads[k] == None {
          return None;
        }
        list := list + [reply.payloads[k].value];
      }
      assert list == Present(reply.payloads).value;
      return Some(list);
    }

    method TransformSinglePayload(payload: Payload) returns (converted: Option<Payload>)
      modifies this
      ensures At() == CallCodec(env, old(At()), [payload]).0
      ensures converted == SingleReply(CallCodec(env, old(At()), [payload]).1)
    {
      var reply := Transform([payload]);
      if reply == Failed || |reply.payloads| != 1 || reply.payloads[0] == None {
        return None;
      }
      return reply.payloads[0];
    }

    method TransformMessagePayloads(m: Message) returns (out: Message, ok: bool)
      requires Fair(env)
      modifies this
      ensures (At(), out, ok) == TransformMessage(env, old(At()), m)
      decreases m, 0
    {
      if m.isSearchAttributes {
        return m, true;
      }
      var fields := m.fields;
      ghost var front, whole := [], TransformFields(env, At(), m.fields);
      AfterNothing(whole);
      assert m.fields[0..] == m.fields;
      for k := 0 to |m.fields|
        invariant |front| == k && fields == front + m.fields[k..]
        invariant whole == After(front, TransformFields(env, At(), m.fields[k..]))
      {
        ghost var rest := m.fields[k..];
        FieldsStep(env, At(), front, rest);
        var field;
        field, ok := TransformFieldPayloads(m.fields[k]);
        fields := fields[k := field];
        ReplaceFirst(front, rest, field);
        assert rest[1..] == m.fields[k + 1..];
        if !ok {
          return m.(fields := fields), false;
        }
        front := front + [field];
      }
      assert front + [] == front;
      return m.(fields := fields), true;
    }

    method TransformFieldPayloads(field: Field) returns (out: Field, ok: bool)
      requires Fair(env)
      modifies this
      ensures (At(), out, ok) == TransformField(env, old(At()), field)
      decreases field, 1
    {
      match field
      case Single(p) =>
        var converted := TransformSinglePayload(p);
        if converted == None {
          return field, false;
        }
        return Single(converted.value), true;
      case PayloadList(ps) =>
        if |ps| == 0 {
          return field, true;
        }
        var converted := TransformPayloadList(ps);
        if converted == None {
          return field, false;
        }
        return PayloadList(converted.value), true;
      case Nested(m) =>
        var message;
        message, ok := TransformMessagePayloads(m);
        return Nested(message), ok;
      case NestedList(ms) =>
        var messages;
        messages, ok := TransformMessages(ms, InOrder(|ms|));
        return NestedList(messages), ok;
      case PayloadMap(keys, ps) =>
        var payloads;
        payloads, ok := TransformMapPayloads(ps, env.order(state, |ps|));
        return PayloadMap(keys, payloads), ok;
      case NestedMap(keys, ms) =>
        var messages;
        messages, ok := TransformMessages(ms, env.order(state, |ms|));
        return NestedMap(keys, messages), ok;
      case _ => return field, true;
    }

    /** The messages of a list in order, or those of a map in the order its keys were collected in. */
    method TransformMessages(ms: seq<Message>, order: seq<nat>) returns (out: seq<Message>, ok: bool)
      requires Fair(env) && forall k :: 0 <= k < |order| ==> order[k] < |ms|
      modifies this
      ensures (At(), out, ok) == TransformAt(env, old(At()), ms, ms, order)
      decreases ms, |order|
    {
      out := ms;
      for k := 0 to |order|
        invariant |out| == |ms|
        invariant TransformAt(env, old(At()), ms, ms, order) == TransformAt(env, At(), ms, out, order[k..])
      {
        assert order[k..][0] == order[k] && order[k..][1..] == order[k + 1..];
        var message;
        message, ok := TransformMessagePayloads(ms[order[k]]);
        out := out[order[k] := message];
        if !ok {
          return;
        }
      }
      ok := true;
    }

    method TransformMapPayloads(ps: seq<Payload>, order: seq<nat>) returns (out: seq<Payload>, ok: bool)
      requires forall k :: 0 <= k < |order| ==> order[k] < |ps|
      modifies this
      ensures (At(), out, ok) == TransformPayloads(env, old(At()), ps, ps, order)
    {
      out := ps;
      for k := 0 to |order|
        invariant |out| == |ps|
        invariant TransformPayloads(env, old(At()), ps, ps, order) == TransformPayloads(env, At(), ps, out, order[k..])
      {
        assert order[k..][0] == order[k] && order[k..][1..] == order[k + 1..];
        var converted := TransformSinglePayload(ps[order[k]]);
        if converted == None {
          return out, false;
        }
        out := out[order[k] := converted.value];
      }
      ok := true;
    }
  }

  /** The result for all fields from that for the last ones. */
  ghost function After(front: seq<Field>, r: (Walk, seq<Field>, bool)): (Walk, seq<Field>, bool) {
    (r.0, front + r.1, r.2)
  }

  lemma AfterNothing(r: (Walk, seq<Field>, bool))
    ensures After([], r) == r
  {
    assert [] + r.1 == r.1;
  }

  lemma ReplaceFirst(front: seq<Field>, rest: seq<Field>, field: Field)
    requires rest != []
    ensures (front + rest)[|front| := field] == (front + [field]) + rest[1..]
  {
  }

  lemma FieldsStep(env: Env, w: Walk, front: seq<Field>, fields: seq<Field>)
    requires Fair(env) && fields != []
    ensures var r := TransformField(env, w, fields[0]);
            After(front, TransformFields(env, w, fields))
            == (if r.2 then After(front + [r.1], TransformFields(env, r.0, fields[1..]))
                else (r.0, (front + [r.1]) + fields[1..], false))
  {
    var r := TransformField(env, w, fields[0]);
    if r.2 {
      var rest := TransformFields(env, r.0, fields[1..]);
      assert front + ([r.1] + rest.1) == (front + [r.1]) + rest.1;
    } else {
      assert front + ([r.1] + fields[1..]) == (front + [r.1]) + fields[1..];
    }
  }
}
