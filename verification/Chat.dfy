/** The chat: sending a message, the rebuilt prompt, and the history that answers extend. */
module Chat {
  import opened Text
  import opened StreamReader

  datatype Role = User | Assistant | System

  /** A history entry; `image` is empty when there is none. */
  datatype Msg = Msg(role: Role, content: string, image: string)

  datatype Part = ImagePart(url: string) | TextPart(text: string)
  datatype Content = Plain(text: string) | Parts(parts: seq<Part>)

  /** A message of a request. */
  datatype Wire = Wire(role: Role, content: Content)

  const REASONING: Wire :=
    Wire(System, Plain("Think step by step. Show your reasoning process before giving the final answer. " +
                     "Use <think> tags to structure your thinking."))

  /** A history entry as later requests send it. */
  function Rebuild(m: Msg): Wire {
    if m.role.User? && m.image != "" then Wire(User, Parts([ImagePart(m.image), TextPart(m.content)]))
    else Wire(m.role, Plain(m.content))
  }

  function RebuildAll(h: seq<Msg>): seq<Wire> {
    seq(|h|, i requires 0 <= i < |h| => Rebuild(h[i]))
  }

  /** The new message as its own request sends it. */
  function NewUser(message: string, image: string): Wire {
    var parts := (if image != "" then [ImagePart(image)] else []) + (if message != "" then [TextPart(message)] else []);
    Wire(User, if |parts| == 1 && parts[0].TextPart? then Plain(message) else Parts(parts))
  }

  function Front(reasoning: bool): seq<Wire> { if reasoning then [REASONING] else [] }

  function RequestMessages(h: seq<Msg>, message: string, image: string, reasoning: bool): seq<Wire> {
    Front(reasoning) + RebuildAll(h) + [NewUser(message, image)]
  }

  /** A request under way. */
  datatype Pending = Pending(message: string, image: string, reasoning: bool, messages: seq<Wire>)

  /** How a request ends: an error status, an exception anywhere, or a stream read to its end. */
  datatype Outcome = NotOk | Failed | Streamed(chunks: seq<string>)

  /** A request that was answered, with the text of the answer. */
  datatype Exchange = Exchange(request: Pending, reply: string)

  /** `log` is a history of the answered requests. */
  datatype State = State(history: seq<Msg>, generating: bool, reasoning: bool, image: string,
                         pending: seq<Pending>, log: seq<Exchange>)

  const START: State := State([], false, false, "", [], [])

  datatype Event = Send(input: string) | Attach(url: string) | RemoveImage | ToggleReasoning |
                   Reply(i: nat, outcome: Outcome)

  /** The part of a send that runs before the request is awaited. */
  function SendStep(s: State, input: string): State {
    var message := Trim(JavaScript, input);
    if (message == "" && s.image == "") || s.generating then s
    else
      s.(image := "", generating := true,
         pending := s.pending +
             [Pending(message, s.image, s.reasoning, RequestMessages(s.history, message, s.image, s.reasoning))])
  }

  function Answered(s: State, p: Pending, reply: string): State {
    s.(history := s.history + [Msg(User, p.message, p.image), Msg(Assistant, reply, "")],
       log := s.log + [Exchange(p, reply)])
  }

  /** The part of a send that runs once its i-th pending request has ended. */
  function ReplyStep(s: State, i: nat, o: Outcome, delta: string -> string): State {
    if i >= |s.pending| then s
    else
      var p := s.pending[i];
      var t := s.(pending := s.pending[..i] + s.pending[i + 1..], generating := false);
      if o.Streamed? then Answered(t, p, FullText(o.chunks, delta)) else t
  }

  function Step(s: State, e: Event, delta: string -> string): State {
    match e
    case Send(input) => SendStep(s, input)
    case Attach(url) => s.(image := url)
    case RemoveImage => s.(image := "")
    case ToggleReasoning => s.(reasoning := !s.reasoning)
    case Reply(i, o) => ReplyStep(s, i, o, delta)
  }

  function Run(s: State, es: seq<Event>, delta: string -> string): State {
    if es == [] then s else Step(Run(s, es[..|es|-1], delta), es[|es|-1], delta)
  }

  // ---- The object ----

  class App {
    var chatHistory: seq<Msg>
    var isGenerating: bool
    var reasoningEnabled: bool
    var attachedImageBase64: string
    /** The sends that wait for their request to end. */
    var awaiting: seq<Pending>
    ghost var log: seq<Exchange>

    ghost function Abstract(): State
      reads this
    {
      State(chatHistory, isGenerating, reasoningEnabled, attachedImageBase64, awaiting, log)
    }

    constructor ()
      ensures Abstract() == START
    {
      chatHistory, isGenerating, reasoningEnabled, attachedImageBase64, awaiting, log := [], false, false, "", [], [];
    }

    /** The loop over the history and the new message's content. */
    method BuildMessages(message: string, imageBase64: string) returns (messages: seq<Wire>)
      ensures messages == RebuildAll(chatHistory) + [NewUser(message, imageBase64)]
    {
      messages := [];
      for k := 0 to |chatHistory|
        invariant messages == RebuildAll(chatHistory[..k])
      {
        var msg := chatHistory[k];
        if msg.role.User? && msg.image != "" {
          messages := messages + [Wire(User, Parts([ImagePart(msg.image), TextPart(msg.content)]))];
        } else {
          messages := messages + [Wire(msg.role, Plain(msg.content))];
        }
      }
      assert chatHistory[..|chatHistory|] == chatHistory;
      var userMsgContent := [];
      if imageBase64 != "" { userMsgContent := userMsgContent + [ImagePart(imageBase64)]; }
      if message != "" { userMsgContent := userMsgContent + [TextPart(message)]; }
      var single := |userMsgContent| == 1 && userMsgContent[0].TextPart?;
      var content := if single then Plain(message) else Parts(userMsgContent);
      assert userMsgContent == (if imageBase64 != "" then [ImagePart(imageBase64)] else []) +
                               (if message != "" then [TextPart(message)] else []);
      messages := messages + [Wire(User, content)];
    }

    /** sendChatMessage up to its fetch; true when a request is made. */
    method BeginSend(input: string) returns (sent: bool)
      modifies `isGenerating, `attachedImageBase64, `awaiting
      ensures Abstract() == SendStep(old(Abstract()), input)
      ensures sent <==> !old(isGenerating) && (Trim(JavaScript, input) != "" || old(attachedImageBase64) != "")
      ensures sent ==> isGenerating && attachedImageBase64 == "" && |awaiting| == |old(awaiting)| + 1
      ensures !sent ==> Abstract() == old(Abstract())
    {
      var message := Trim(JavaScript, input);
      if message == "" && attachedImageBase64 == "" { return false; }
      if isGenerating { return false; }
      var imageBase64 := attachedImageBase64;
      attachedImageBase64 := "";
      isGenerating := true;
      var messages := BuildMessages(message, imageBase64);
      if reasoningEnabled { messages := [REASONING] + messages; }
      awaiting := awaiting + [Pending(message, imageBase64, reasoningEnabled, messages)];
      assert messages == RequestMessages(chatHistory, message, imageBase64, reasoningEnabled);
      sent := true;
    }

    /** sendChatMessage from the end of its i-th waiting request on. */
    method EndSend(i: nat, outcome: Outcome, delta: string -> string)
      requires i < |awaiting|
      modifies `isGenerating, `chatHistory, `awaiting, `log
      ensures Abstract() == ReplyStep(old(Abstract()), i, outcome, delta)
      ensures !isGenerating && |awaiting| == |old(awaiting)| - 1
      ensures !outcome.Streamed? ==> chatHistory == old(chatHistory)
    {
      var p := awaiting[i];
      awaiting := awaiting[..i] + awaiting[i + 1..];
      if outcome.Streamed? {
        var fullText := ReadStream(outcome.chunks, delta);
        chatHistory := chatHistory + [Msg(User, p.message, p.image)];
        chatHistory := chatHistory + [Msg(Assistant, fullText, "")];
        log := log + [Exchange(p, fullText)];
      }
      isGenerating := false;
    }
  }

  // ---- What every run keeps ----

  /** The history that a list of exchanges leaves. */
  function Flatten(log: seq<Exchange>): seq<Msg> {
    if log == [] then []
    else
      var x := log[|log|-1];
      Flatten(log[..|log|-1]) + [Msg(User, x.request.message, x.request.image), Msg(Assistant, x.reply, "")]
  }

  /** The request was built from this history, and has a text or an image. */
  predicate BuiltFrom(p: Pending, h: seq<Msg>) {
    p.messages == RequestMessages(h, p.message, p.image, p.reasoning) && (p.message != "" || p.image != "")
  }

  predicate ChatInv(s: State) {
    |s.pending| <= 1 && (s.generating <==> |s.pending| == 1) &&
    s.history == Flatten(s.log) &&
    (forall k :: 0 <= k < |s.log| ==> BuiltFrom(s.log[k].request, Flatten(s.log[..k]))) &&
    (forall k :: 0 <= k < |s.pending| ==> BuiltFrom(s.pending[k], s.history))
  }

  lemma AnsweredKeeps(s: State, p: Pending, reply: string)
    requires ChatInv(s) && s.pending == [] && BuiltFrom(p, s.history)
    ensures ChatInv(Answered(s, p, reply))
  {
    var t := Answered(s, p, reply);
    var n := |s.log|;
    assert t.log[..n] == s.log;
    forall k | 0 <= k < |t.log|
      ensures BuiltFrom(t.log[k].request, Flatten(t.log[..k]))
    {
      if k < n { assert t.log[..k] == s.log[..k] && t.log[k] == s.log[k]; }
    }
  }

  lemma ReplyKeeps(s: State, i: nat, o: Outcome, delta: string -> string)
    requires ChatInv(s)
    ensures ChatInv(ReplyStep(s, i, o, delta))
  {
    if i < |s.pending| {
      assert i == 0 && s.pending[..0] + s.pending[1..] == [];
      var t := s.(pending := [], generating := false);
      if o.Streamed? { AnsweredKeeps(t, s.pending[0], FullText(o.chunks, delta)); }
    }
  }

  lemma StepKeeps(s: State, e: Event, delta: string -> string)
    requires ChatInv(s)
    ensures ChatInv(Step(s, e, delta))
  {
    match e
    case Reply(i, outcome) => ReplyKeeps(s, i, outcome, delta);
    case _ =>
  }

  /** At most one send is in flight, and the flag says whether one is. */
  lemma {:induction false} RunKeeps(es: seq<Event>, delta: string -> string)
    ensures ChatInv(Run(START, es, delta))
  {
    if es != [] {
      RunKeeps(es[..|es|-1], delta);
      StepKeeps(Run(START, es[..|es|-1], delta), es[|es|-1], delta);
    }
  }

  lemma {:induction false} FlattenAlternates(log: seq<Exchange>)
    ensures |Flatten(log)| == 2 * |log|
    ensures forall k :: 0 <= k < |log| ==>
              Flatten(log)[2 * k] == Msg(User, log[k].request.message, log[k].request.image) &&
              Flatten(log)[2 * k + 1] == Msg(Assistant, log[k].reply, "")
  {
    if log != [] {
      var n := |log| - 1;
      FlattenAlternates(log[..n]);
      assert forall k :: 0 <= k < n ==> log[..n][k] == log[k];
    }
  }

  /** In every run the history is the answered requests' (user, assistant) pairs, in order. */
  lemma {:induction false} HistoryAlternates(es: seq<Event>, delta: string -> string)
    ensures var s := Run(START, es, delta);
            |s.history| == 2 * |s.log| &&
            forall k :: 0 <= k < |s.log| ==>
              s.history[2 * k] == Msg(User, s.log[k].request.message, s.log[k].request.image) &&
              s.history[2 * k + 1] == Msg(Assistant, s.log[k].reply, "")
  {
    RunKeeps(es, delta);
    FlattenAlternates(Run(START, es, delta).log);
  }

  /** Only a stream read to its end changes the history, and it adds its own pair with the streamed text. */
  lemma {:induction false} HistoryChangesBy(es: seq<Event>, e: Event, delta: string -> string)
    ensures var s, t := Run(START, es, delta), Run(START, es + [e], delta);
            if e.Reply? && e.outcome.Streamed? && s.pending != [] && e.i == 0 then
              t.history == s.history + [Msg(User, s.pending[0].message, s.pending[0].image),
                                        Msg(Assistant, FullText(e.outcome.chunks, delta), "")]
            else t.history == s.history
  {
    RunKeeps(es, delta);
  }

  // ---- What the requests say ----

  predicate Prefix(a: seq<Wire>, b: seq<Wire>) { a <= b }

  lemma {:induction false} FlattenPrefix(log: seq<Exchange>, k: nat)
    requires k <= |log|
    ensures Flatten(log[..k]) <= Flatten(log)
  {
    if k == |log| {
      assert log[..k] == log;
    } else {
      var n := |log| - 1;
      FlattenPrefix(log[..n], k);
      assert log[..n][..k] == log[..k];
    }
  }

  /** The k-th answered request's own entry stands behind the history it was built from. */
  lemma OwnEntry(log: seq<Exchange>, k: nat)
    requires k < |log|
    ensures var h := Flatten(log[..k]);
            |h| < |Flatten(log)| && Flatten(log)[..|h|] == h &&
            Flatten(log)[|h|] == Msg(User, log[k].request.message, log[k].request.image)
  {
    FlattenPrefix(log, k);
    FlattenAlternates(log[..k]);
    FlattenAlternates(log);
  }

  /** A new message is sent again as it was first sent exactly when its text is not empty. */
  lemma ResentAsSent(message: string, image: string)
    requires message != "" || image != ""
    ensures NewUser(message, image) == Rebuild(Msg(User, message, image)) <==> message != ""
  {
    if message == "" {
      assert NewUser(message, image).content == Parts([ImagePart(image)] + []);
      assert |[ImagePart(image), TextPart(message)]| == 2;
    } else if image == "" {
      assert [] + [TextPart(message)] == [TextPart(message)];
    } else {
      assert [ImagePart(image)] + [TextPart(message)] == [ImagePart(image), TextPart(message)];
    }
  }

  /** A request built from a history that contains an earlier exchange, position by position. */
  lemma RequestLayout(p: Pending, h: seq<Msg>, x: Pending, g: seq<Msg>)
    requires BuiltFrom(p, h) && BuiltFrom(x, g) && p.reasoning == x.reasoning
    requires |g| < |h| && h[..|g|] == g && h[|g|] == Msg(User, x.message, x.image)
    ensures var n := |x.messages| - 1;
            n < |p.messages| && p.messages[..n] == x.messages[..n] &&
            p.messages[n] == Rebuild(h[|g|]) && x.messages[n] == NewUser(x.message, x.image)
  {
    var f := Front(p.reasoning);
    var n := |f| + |g|;
    assert |x.messages| == n + 1 && |p.messages| == |f| + |h| + 1;
    forall k | 0 <= k < n
      ensures p.messages[k] == x.messages[k]
    {
      if k >= |f| {
        assert p.messages[k] == RebuildAll(h)[k - |f|] && x.messages[k] == RebuildAll(g)[k - |f|];
        assert h[k - |f|] == h[..|g|][k - |f|];
      }
    }
    assert p.messages[n] == RebuildAll(h)[|g|];
  }

  predicate NoSystem(h: seq<Msg>) { forall k :: 0 <= k < |h| ==> h[k].role != System }

  lemma ExtendsIff(p: Pending, h: seq<Msg>, x: Pending, g: seq<Msg>)
    requires BuiltFrom(p, h) && BuiltFrom(x, g) && NoSystem(h) && NoSystem(g)
    requires |g| < |h| && h[..|g|] == g && h[|g|] == Msg(User, x.message, x.image)
    ensures Prefix(x.messages, p.messages) <==> p.reasoning == x.reasoning && x.message != ""
  {
    if p.reasoning == x.reasoning {
      RequestLayout(p, h, x, g);
      ResentAsSent(x.message, x.image);
      PrefixByLast(x.messages, p.messages);
    } else {
      FirstMessages(p, h);
      FirstMessages(x, g);
    }
  }

  lemma PrefixByLast(a: seq<Wire>, b: seq<Wire>)
    requires |a| > 0 && |a| - 1 < |b| && a[..|a|-1] == b[..|a|-1]
    ensures Prefix(a, b) <==> a[|a|-1] == b[|a|-1]
  {
    var n := |a| - 1;
    assert a == a[..n] + [a[n]] && b[..n + 1] == b[..n] + [b[n]];
  }

  lemma {:induction false} FlattenNoSystem(log: seq<Exchange>)
    ensures NoSystem(Flatten(log))
  {
    if log != [] { FlattenNoSystem(log[..|log|-1]); }
  }

  /** The messages of the request in flight extend those of an answered request exactly when the reasoning toggle
      was the same for both and the answered message had a text. */
  lemma {:induction false} RequestExtendsAnswered(es: seq<Event>, k: nat, delta: string -> string)
    requires var s := Run(START, es, delta); k < |s.log| && s.pending != []
    ensures var s := Run(START, es, delta);
            var p, x := s.pending[0], s.log[k].request;
            Prefix(x.messages, p.messages) <==> p.reasoning == x.reasoning && x.message != ""
  {
    RunKeeps(es, delta);
    var s := Run(START, es, delta);
    OwnEntry(s.log, k);
    FlattenNoSystem(s.log);
    FlattenNoSystem(s.log[..k]);
    ExtendsIff(s.pending[0], s.history, s.log[k].request, Flatten(s.log[..k]));
  }

  /** A request's first message is the reasoning prompt exactly when the toggle was on. */
  lemma FirstMessages(p: Pending, h: seq<Msg>)
    requires BuiltFrom(p, h) && NoSystem(h)
    ensures p.messages[0].role == System <==> p.reasoning
  {
    if !p.reasoning {
      assert Front(false) + RebuildAll(h) == RebuildAll(h);
      if h != [] { assert p.messages[0] == RebuildAll(h)[0] == Rebuild(h[0]); }
    }
  }

  /** A message without its empty text parts. */
  function Essence(w: Wire): Wire {
    if w.content.Parts? then w.(content := Parts(NonEmpty(w.content.parts))) else w
  }

  function NonEmpty(parts: seq<Part>): seq<Part> {
    if parts == [] then []
    else (if parts[0] == TextPart("") then [] else [parts[0]]) + NonEmpty(parts[1..])
  }

  function Essences(ws: seq<Wire>): seq<Wire> {
    seq(|ws|, i requires 0 <= i < |ws| => Essence(ws[i]))
  }

  lemma ResentInEssence(message: string, image: string)
    requires message != "" || image != ""
    ensures Essence(NewUser(message, image)) == Essence(Rebuild(Msg(User, message, image)))
  {
    if message == "" {
      var one, two := [ImagePart(image)], [ImagePart(image), TextPart("")];
      assert one[1..] == [] && two[1..] == [TextPart("")] && two[1..][1..] == [];
      assert NonEmpty(one) == [ImagePart(image)] + NonEmpty([]);
      assert NonEmpty(two) == [ImagePart(image)] + NonEmpty(two[1..]);
      assert NonEmpty(two[1..]) == [] + NonEmpty([]);
      assert [ImagePart(image)] + [] == one;
    } else {
      ResentAsSent(message, image);
    }
  }

  lemma ExtendsInEssence(p: Pending, h: seq<Msg>, x: Pending, g: seq<Msg>)
    requires BuiltFrom(p, h) && BuiltFrom(x, g) && p.reasoning == x.reasoning
    requires |g| < |h| && h[..|g|] == g && h[|g|] == Msg(User, x.message, x.image)
    ensures Prefix(Essences(x.messages), Essences(p.messages))
  {
    RequestLayout(p, h, x, g);
    ResentInEssence(x.message, x.image);
    var n := |x.messages| - 1;
    assert forall j :: 0 <= j < n ==> x.messages[j] == x.messages[..n][j] == p.messages[..n][j] == p.messages[j];
    assert Essences(p.messages)[..n] == Essences(x.messages)[..n];
    PrefixByLast(Essences(x.messages), Essences(p.messages));
  }

  /** Up to empty text parts, they extend those of every answered request made with the same toggle. */
  lemma {:induction false} RequestExtendsInEssence(es: seq<Event>, k: nat, delta: string -> string)
    requires var s := Run(START, es, delta);
             k < |s.log| && s.pending != [] && s.pending[0].reasoning == s.log[k].request.reasoning
    ensures var s := Run(START, es, delta);
            Prefix(Essences(s.log[k].request.messages), Essences(s.pending[0].messages))
  {
    RunKeeps(es, delta);
    var s := Run(START, es, delta);
    OwnEntry(s.log, k);
    ExtendsInEssence(s.pending[0], s.history, s.log[k].request, Flatten(s.log[..k]));
  }

  // ---- What a request says, position by position ----

  /** One entry of a request, behind the reasoning prompt if there is one. */
  lemma EntryAt(p: Pending, h: seq<Msg>, k: nat)
    requires BuiltFrom(p, h) && k < |h|
    ensures var f := if p.reasoning then 1 else 0;
            f + k < |p.messages| && p.messages[f + k] == Rebuild(h[k])
  {
    var f := if p.reasoning then 1 else 0;
    assert |Front(p.reasoning)| == f;
    assert p.messages[f + k] == RebuildAll(h)[k];
  }

  lemma FirstAndLast(p: Pending, h: seq<Msg>)
    requires BuiltFrom(p, h)
    ensures var f := if p.reasoning then 1 else 0;
            |p.messages| == f + |h| + 1 && p.messages[f + |h|] == NewUser(p.message, p.image)
    ensures p.reasoning ==> p.messages[0] == REASONING
  {
    assert |Front(p.reasoning)| == if p.reasoning then 1 else 0;
  }

  /** In every run, the request in flight carries the reasoning prompt if the toggle was on, then two entries for each
      answered exchange, then the new message, whose text is left out when it is empty. */
  lemma RequestFrame(es: seq<Event>, delta: string -> string)
    requires Run(START, es, delta).pending != []
    ensures var s := Run(START, es, delta);
            var p, f := s.pending[0], if s.pending[0].reasoning then 1 else 0;
            |p.messages| == f + 2 * |s.log| + 1 && (p.reasoning ==> p.messages[0].role == System) &&
            p.messages[f + 2 * |s.log|] ==
              Wire(User, if p.image == "" then Plain(p.message)
                         else if p.message == "" then Parts([ImagePart(p.image)])
                         else Parts([ImagePart(p.image), TextPart(p.message)]))
  {
    RunKeeps(es, delta);
    HistoryAlternates(es, delta);
    var s := Run(START, es, delta);
    FirstAndLast(s.pending[0], s.history);
    NewMessage(s.pending[0].message, s.pending[0].image);
  }

  /** The k-th exchange stands in the request: the user's message with its image in front of its text, and the
      assistant's answer under its own role. */
  predicate Carries(p: Pending, k: nat, message: string, image: string, reply: string) {
    var at := 2 * k + if p.reasoning then 1 else 0;
    at + 1 < |p.messages| &&
    p.messages[at] == Wire(User, if image == "" then Plain(message)
                                 else Parts([ImagePart(image), TextPart(message)])) &&
    p.messages[at + 1] == Wire(Assistant, Plain(reply))
  }

  /** In every run, the request in flight carries each answered exchange at its place. */
  lemma RequestCarriesExchange(es: seq<Event>, k: nat, delta: string -> string)
    requires var s := Run(START, es, delta); s.pending != [] && k < |s.log|
    ensures var s := Run(START, es, delta);
            Carries(s.pending[0], k, s.log[k].request.message, s.log[k].request.image, s.log[k].reply)
  {
    RunKeeps(es, delta);
    var s := Run(START, es, delta);
    FlattenAlternates(s.log);
    ExchangeAt(s.pending[0], s.history, k, s.log[k].request.message, s.log[k].request.image, s.log[k].reply);
  }

  lemma ExchangeAt(p: Pending, h: seq<Msg>, k: nat, message: string, image: string, reply: string)
    requires BuiltFrom(p, h) && 2 * k + 1 < |h|
    requires h[2 * k] == Msg(User, message, image) && h[2 * k + 1] == Msg(Assistant, reply, "")
    ensures Carries(p, k, message, image, reply)
  {
    EntryAt(p, h, 2 * k);
    EntryAt(p, h, 2 * k + 1);
  }

  lemma NewMessage(message: string, image: string)
    requires message != "" || image != ""
    ensures NewUser(message, image) ==
            Wire(User, if image == "" then Plain(message)
                       else if message == "" then Parts([ImagePart(image)])
                       else Parts([ImagePart(image), TextPart(message)]))
  {
    assert [ImagePart(image)] + [] == [ImagePart(image)];
    assert [] + [TextPart(message)] == [TextPart(message)];
    assert [ImagePart(image)] + [TextPart(message)] == [ImagePart(image), TextPart(message)];
  }

  // ---- What the page's controls do ----

  /** The toggle flips with each click, an attached image stays until it is removed, replaced or sent, and a
      request takes the trimmed text, the image and the toggle as they are. */
  lemma ControlsChangeBy(es: seq<Event>, e: Event, delta: string -> string)
    ensures var s, t := Run(START, es, delta), Run(START, es + [e], delta);
            t.reasoning == (if e.ToggleReasoning? then !s.reasoning else s.reasoning) &&
            t.image == match e
                       case Attach(url) => url
                       case RemoveImage => ""
                       case Send(_) => (if |t.pending| > |s.pending| then "" else s.image)
                       case _ => s.image
    ensures var s, t := Run(START, es, delta), Run(START, es + [e], delta);
            |t.pending| > |s.pending| <==>
              e.Send? && s.pending == [] && (Trim(JavaScript, e.input) != "" || s.image != "")
    ensures var s, t := Run(START, es, delta), Run(START, es + [e], delta);
            |t.pending| > |s.pending| ==>
              t.pending[0].message == Trim(JavaScript, e.input) && t.pending[0].image == s.image &&
              t.pending[0].reasoning == s.reasoning
  {
    RunKeeps(es, delta);
    assert (es + [e])[..|es|] == es;
  }
}
