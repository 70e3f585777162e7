/** The frames a server sends and what `connection_impl::process_response` keeps of them. */
module Frames {
  import opened Wrappers

  /** A JSON field as far as `process_response` looks at it. */
  datatype Field = Missing | Text(text: string) | Array | Number(n: int) | Other

  /** A received frame: it may not parse, may not be an object, or is an object with the five fields that are read. */
  datatype Frame =
    | Unparsable
    | NonObject
    | Object(invocation: Field, groups: Field, messages: Field, cursor: Field, init: Field)

  /** `m_message_id` and `m_groups_token`. */
  datatype Cursor = Cursor(messageId: string, groupsToken: string)

  const EMPTY_CURSOR := Cursor("", "")

  /** The groups token a frame carries, if it is read at all: a textual "G" in an object without "I". */
  function GroupsToken(frame: Frame): Option<string> {
    match frame
    case Object(Missing, Text(groups), _, _, _) => Some(groups)
    case _ => None
  }

  /** The message id a frame carries: "C" counts only beside an array "M", and a "C" that is no text is refused. */
  function MessageId(frame: Frame): Option<string> {
    match frame
    case Object(Missing, _, Array, Text(id), _) => Some(id)
    case _ => None
  }

  /** Does the frame release the connect request? */
  predicate IsInit(frame: Frame) {
    MessageId(frame).Some? && frame.init == Number(1)
  }

  /** An init frame: an object without "I", with an array "M", a textual "C" and the number 1 in "S". */
  predicate Starts(f: Frame) {
    f.Object? && f.invocation == Missing && f.messages == Array && f.cursor.Text? && f.init == Number(1)
  }

  lemma IsInitStarts(f: Frame)
    ensures IsInit(f) <==> Starts(f)
  {
  }

  /** What one call of `process_response` leaves in the two fields, statement by statement. */
  function Process(cursor: Cursor, frame: Frame): Cursor {
    if !frame.Object? || frame.invocation != Missing then cursor
    else
      var withGroups := if frame.groups.Text? then cursor.(groupsToken := frame.groups.text) else cursor;
      if frame.messages.Array? && frame.cursor.Text?
      then withGroups.(messageId := frame.cursor.text)
      else withGroups
  }

  /** The fields after a whole sequence of frames, starting from the values `start` writes. */
  function Fold(frames: seq<Frame>): Cursor {
    if frames == [] then EMPTY_CURSOR
    else Process(Fold(frames[..|frames| - 1]), frames[|frames| - 1])
  }

  /** `value` is what the latest frame carrying one carries, or "" when none does. */
  ghost predicate IsLatest(frames: seq<Frame>, carried: Frame -> Option<string>, value: string) {
    || (value == "" && forall k | 0 <= k < |frames| :: carried(frames[k]) == None)
    || exists k | 0 <= k < |frames| ::
         carried(frames[k]) == Some(value) && forall j | k < j < |frames| :: carried(frames[j]) == None
  }

  lemma {:induction false} IsLatestStep(frames: seq<Frame>, frame: Frame, carried: Frame -> Option<string>, value: string)
    requires IsLatest(frames, carried, value)
    ensures IsLatest(frames + [frame], carried, if carried(frame).Some? then carried(frame).value else value)
  {
    var longer := frames + [frame];
    if carried(frame).Some? {
      assert longer[|frames|] == frame;
    } else if k :| 0 <= k < |frames| && carried(frames[k]) == Some(value) &&
                   (forall j | k < j < |frames| :: carried(frames[j]) == None) {
      assert longer[k] == frames[k];
    }
  }

  /** The kept fields are exactly the last accepted "C" and the last textual "G". */
  lemma {:induction false} FoldIsLatest(frames: seq<Frame>)
    ensures IsLatest(frames, GroupsToken, Fold(frames).groupsToken)
    ensures IsLatest(frames, MessageId, Fold(frames).messageId)
  {
    if frames != [] {
      var init, last := frames[..|frames| - 1], frames[|frames| - 1];
      assert frames == init + [last];
      FoldIsLatest(init);
      IsLatestStep(init, last, GroupsToken, Fold(init).groupsToken);
      IsLatestStep(init, last, MessageId, Fold(init).messageId);
    }
  }

  lemma FoldAppend(frames: seq<Frame>, frame: Frame)
    ensures Fold(frames + [frame]) == Process(Fold(frames), frame)
  {
    assert (frames + [frame])[..|frames|] == frames;
  }
}
