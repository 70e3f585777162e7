/** Hub messages: the JSON a server sends back for an invocation and what it does to the invocation. */
module HubMessages {
  import opened Wrappers

  datatype Json =
    | Null
    | Bool(b: bool)
    | Number(n: int)
    | Text(s: string)
    | Array(items: seq<Json>)
    | Object(fields: map<string, Json>)

  predicate HasField(j: Json, name: string) {
    j.Object? && name in j.fields
  }

  function At(j: Json, name: string): Json
    requires HasField(j, name)
  {
    j.fields[name]
  }

  /** How the completion event of an invocation is set. */
  datatype Completion =
    | Result(value: Json)
    | HubError(error: Json, data: Json)
    | Error(error: Json)
    | SendFailure

  /** The function `create_hub_invocation_callback` returns (306-347): a completion, or a call of `on_progress`. */
  datatype Reaction = Completes(completion: Completion) | Progress(data: Json)

  function React(message: Json): Reaction {
    if HasField(message, "R") then Completes(Result(At(message, "R")))
    else if HasField(message, "P") then
      var progress := At(message, "P");
      Progress(if HasField(progress, "D") then At(progress, "D") else Null)
    else if HasField(message, "E") then
      if HasField(message, "H") && At(message, "H") == Bool(true)
      then Completes(HubError(At(message, "E"), if HasField(message, "D") then At(message, "D") else Null))
      else Completes(Error(At(message, "E")))
    else Completes(Result(Null))
  }

  /** `is_progress` in `invoke_callback` (165). */
  predicate IsProgress(message: Json) {
    HasField(message, "P")
  }

  /** The id `invoke_callback` looks for (166-169), if the message has one. */
  function IdOf(message: Json): Option<string> {
    var source := if IsProgress(message) then At(message, "P") else message;
    if HasField(source, "I") && At(source, "I").Text? then Some(At(source, "I").s) else None
  }

  /** The arguments of `clear` when the connection is stopped, lost or destroyed. */
  function Cleared(reason: string): Json {
    Object(map["E" := Text(reason)])
  }

  /** What `process_message` does with a message (126-161). */
  datatype Routing =
    | ToInvocation(id: string)                           // the callback with that id, if there is one, is called
    | ToProxy(hub: string, method_: string, args: Json)  // the handler of that proxy, if there is one
    | Malformed                                          // "H" or "M" is no text: `as_string` throws
    | Discarded

  function Route(message: Json): Routing {
    if !message.Object? then Discarded
    else if HasField(message, "I") && IdOf(message).Some? then ToInvocation(IdOf(message).value)
    else if HasField(message, "H") && HasField(message, "M") && HasField(message, "A") then
      if At(message, "H").Text? && At(message, "M").Text?
      then ToProxy(At(message, "H").s, At(message, "M").s, At(message, "A"))
      else Malformed
    else Discarded
  }

  // ---- What the fields of a message say, apart from the code that looks at them ----

  /** What a message that completes an invocation completes it with. */
  predicate Says(message: Json, c: Completion) {
    var f := if message.Object? then message.fields else map[];
    && ("R" in f ==> c == Result(f["R"]))
    && ("R" !in f && "E" in f && "H" in f && f["H"] == Bool(true) ==>
          c == HubError(f["E"], if "D" in f then f["D"] else Null))
    && ("R" !in f && "E" in f && !("H" in f && f["H"] == Bool(true)) ==> c == Error(f["E"]))
    && ("R" !in f && "E" !in f ==> c == Result(Null))
  }

  /** What a message that completes nothing reports as progress. */
  predicate Reports(message: Json, data: Json) {
    && message.Object? && "R" !in message.fields && "P" in message.fields
    && var p := message.fields["P"];
       data == if p.Object? && "D" in p.fields then p.fields["D"] else Null
  }

  /** A message completes its invocation with what its fields say, or reports its progress; only progress without a
      result reports. */
  lemma ReactSays(message: Json)
    ensures match React(message)
            case Completes(c) => Says(message, c)
            case Progress(data) => Reports(message, data)
  {
  }

  /** What running the callback of invocation `n` with a message does to the completions and to the progress reports: a
      progress message without a result is reported, any other one completes the invocation with what it says, unless
      it was complete. */
  predicate Answers(message: Json, n: nat, done: map<nat, Completion>, done': map<nat, Completion>,
                    reports: seq<(nat, Json)>, reports': seq<(nat, Json)>) {
    if HasField(message, "P") && !HasField(message, "R") then
      && done' == done && |reports'| == |reports| + 1 && reports <= reports'
      && reports'[|reports|].0 == n && Reports(message, reports'[|reports|].1)
    else
      && reports' == reports && n in done'
      && (if n in done then done' == done else Says(message, done'[n]) && done' == done[n := done'[n]])
  }

  /** The id a message carries: its own "I", or that of its "P" if it has one. */
  function Named(message: Json): Json
    requires message.Object?
  {
    var f := message.fields;
    if "P" !in f then (if "I" in f then f["I"] else Null)
    else if f["P"].Object? && "I" in f["P"].fields then f["P"].fields["I"]
    else Null
  }

  /** Where a message goes: with an "I", to the invocation that a textual id names; else, with an "A", to the proxy its
      "H" names, as the event its "M" names. */
  predicate Goes(message: Json, r: Routing) {
    match message
    case Object(f) =>
      && ("I" in f && Named(message).Text? ==> r == ToInvocation(Named(message).s))
      && (!("I" in f && Named(message).Text?) && "H" in f && "M" in f && "A" in f ==>
            r == if f["H"].Text? && f["M"].Text? then ToProxy(f["H"].s, f["M"].s, f["A"]) else Malformed)
      && (!("I" in f && Named(message).Text?) && !("H" in f && "M" in f && "A" in f) ==> r == Discarded)
    case _ => r == Discarded
  }

  lemma RouteGoes(message: Json)
    ensures Goes(message, Route(message))
  {
  }

  /** A message whose callback is unregistered completes its invocation, and so does the error of a clear, whatever its
      reason; only progress without a result does not. */
  lemma UnregistersOnlyCompleted(message: Json, reason: string)
    ensures !IsProgress(message) ==> React(message).Completes?
    ensures React(message).Progress? <==> IsProgress(message) && !HasField(message, "R")
    ensures React(Cleared(reason)) == Completes(Error(Text(reason)))
  {
  }
}
