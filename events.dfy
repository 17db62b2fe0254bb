/** Lifecycle notifications: how `notify_event` normalises its message and
    fans it out to a transaction's event handlers. */
module Events {
  import opened Values

  /** An event handler, known only by its name. */
  datatype Handler = Handler(name: string)

  /** How one `handler.notify(...)` call ends; any exception propagates. */
  datatype Delivery = Delivered | Raised

  /** The message given to `notify_event`: a mapping, or any other value,
      of which the model keeps the string `str(message)` would give. */
  datatype Message = DictMessage(fields: map<string, Value>) | OtherMessage(text: string)

  /** The only status this component reports. */
  const InProgress: string := "IN_PROGRESS"

  /** One `notify(transaction, status, message)` call made on a handler. */
  datatype Notification = Notification(handler: Handler, status: string, message: map<string, Value>)

  /** The mapping handlers receive: a mapping passes through unchanged, any
      other value is wrapped under the single key "message". */
  function Normalize(m: Message): (fields: map<string, Value>)
    ensures m.DictMessage? ==> fields == m.fields
    ensures m.OtherMessage? ==> fields.Keys == {"message"} && fields["message"] == Str(m.text)
  {
    match m
    case DictMessage(f) => f
    case OtherMessage(t) => map["message" := Str(t)]
  }

  /** Normalising an already normalised message changes nothing, so every
      handler of one fan-out sees the same mapping. */
  lemma NormalizeIdempotent(m: Message)
    ensures Normalize(DictMessage(Normalize(m))) == Normalize(m)
  {
  }

  /** One "IN_PROGRESS" notification with `payload` per handler, in order. */
  function Deliveries(hs: seq<Handler>, payload: map<string, Value>): (ns: seq<Notification>)
    ensures |ns| == |hs|
    ensures forall i :: 0 <= i < |hs| ==> ns[i] == Notification(hs[i], InProgress, payload)
  {
    if hs == [] then [] else [Notification(hs[0], InProgress, payload)] + Deliveries(hs[1..], payload)
  }

  /** What one `notify_event` call does: the notifications it makes, in
      order, and whether an exception escapes it. */
  datatype FanOut = FanOut(sent: seq<Notification>, raised: bool)

  /** The fan-out of `payload` over the handler list `hs`, when notifying
      handler `h` ends as `deliver(h, status, payload)`: front to back, and
      the first exception ends it. */
  function Fanout(hs: seq<Handler>, payload: map<string, Value>, deliver: (Handler, string, map<string, Value>) -> Delivery): (run: FanOut)
    ensures |run.sent| <= |hs|
  {
    if hs == [] then FanOut([], false)
    else
      var first := Notification(hs[0], InProgress, payload);
      if deliver(hs[0], InProgress, payload) == Raised then FanOut([first], true)
      else
        var rest := Fanout(hs[1..], payload, deliver);
        FanOut([first] + rest.sent, rest.raised)
  }

  /** A fan-out notifies a prefix of the handler list, each with
      "IN_PROGRESS" and the payload; all of it when nothing escapes, and
      when an exception escapes the last handler notified is one that
      raises. */
  lemma {:induction false} FanoutIsPrefix(hs: seq<Handler>, payload: map<string, Value>, deliver: (Handler, string, map<string, Value>) -> Delivery)
    ensures var run := Fanout(hs, payload, deliver);
      && run.sent == Deliveries(hs[..|run.sent|], payload)
      && (!run.raised ==> |run.sent| == |hs|)
      && (run.raised ==> run.sent != [] && deliver(hs[|run.sent| - 1], InProgress, payload) == Raised)
  {
    if hs != [] && deliver(hs[0], InProgress, payload) != Raised {
      FanoutIsPrefix(hs[1..], payload, deliver);
      var rest := Fanout(hs[1..], payload, deliver);
      assert hs[..|rest.sent| + 1] == [hs[0]] + hs[1..][..|rest.sent|];
    }
  }

  /** `notify_event(message)` over the handler list `hs`. */
  function NotifySpec(hs: seq<Handler>, message: Message, deliver: (Handler, string, map<string, Value>) -> Delivery): (run: FanOut)
    ensures |run.sent| <= |hs|
    ensures forall i :: 0 <= i < |run.sent| ==> run.sent[i] == Notification(hs[i], InProgress, Normalize(message))
    ensures !run.raised ==> |run.sent| == |hs|
  {
    FanoutIsPrefix(hs, Normalize(message), deliver);
    Fanout(hs, Normalize(message), deliver)
  }

  /** When no handler raises, every handler is notified once, in list order,
      with status "IN_PROGRESS" and the normalised message. */
  lemma {:induction false} NotifyReachesEveryHandler(hs: seq<Handler>, payload: map<string, Value>, deliver: (Handler, string, map<string, Value>) -> Delivery)
    requires forall j :: 0 <= j < |hs| ==> deliver(hs[j], InProgress, payload) != Raised
    ensures Fanout(hs, payload, deliver) == FanOut(Deliveries(hs, payload), false)
  {
    if hs != [] {
      assert deliver(hs[0], InProgress, payload) != Raised;
      forall j | 0 <= j < |hs[1..]| ensures deliver(hs[1..][j], InProgress, payload) != Raised {
        assert hs[1..][j] == hs[j + 1];
      }
      NotifyReachesEveryHandler(hs[1..], payload, deliver);
    }
  }

  /** The first handler that raises, at position `k`, is the last one
      notified, and its exception escapes `notify_event`. */
  lemma {:induction false} NotifyStopsAtRaisingHandler(hs: seq<Handler>, payload: map<string, Value>, deliver: (Handler, string, map<string, Value>) -> Delivery, k: nat)
    requires k < |hs| && deliver(hs[k], InProgress, payload) == Raised
    requires forall j :: 0 <= j < k ==> deliver(hs[j], InProgress, payload) != Raised
    ensures Fanout(hs, payload, deliver) == FanOut(Deliveries(hs[..k + 1], payload), true)
  {
    if k > 0 {
      assert deliver(hs[0], InProgress, payload) != Raised;
      forall j | 0 <= j < k - 1 ensures deliver(hs[1..][j], InProgress, payload) != Raised {
        assert hs[1..][j] == hs[j + 1];
      }
      NotifyStopsAtRaisingHandler(hs[1..], payload, deliver, k - 1);
      assert hs[..k + 1][1..] == hs[1..][..k];
    }
  }
}
