/**
 * The backend-agnostic event vocabulary, the launch description and the
 * completion tokens shared by both adapters (internal/cli/interface.go).
 */
module CliEvents {
  import opened Wrappers
  import Text

  /** The normalized event types: exactly these six. */
  datatype EventType = Message | ToolStart | ToolEnd | TurnComplete | Error | Unknown {
    function Name(): string {
      match this
      case Message => "message"
      case ToolStart => "tool_start"
      case ToolEnd => "tool_end"
      case TurnComplete => "turn_complete"
      case Error => "error"
      case Unknown => "unknown"
    }
  }

  /** Distinct types have distinct wire names. */
  lemma NamesDistinct(a: EventType, b: EventType)
    ensures a.Name() == b.Name() ==> a == b
  {
  }

  /** A decoded JSON value inside a tool-input object; only strings are ever inspected. */
  datatype JsonValue = JString(s: string) | JOther

  /** A decoded tool-input object; None is Go's nil map. */
  type ToolInput = Option<map<string, JsonValue>>

  /** The outcome of `json.Unmarshal` of one line into a backend's schema. */
  datatype Decoded<T> = Json(value: T) | Malformed

  datatype NormalizedEvent = NormalizedEvent(
    kind: EventType,
    content: string,
    toolName: string,
    toolId: string,
    toolInput: ToolInput,
    isError: bool,
    timestamp: int)

  /** A freshly built event: only its type and clock reading are set. */
  function BlankEvent(kind: EventType, now: int): NormalizedEvent {
    NormalizedEvent(kind, "", "", "", None, false, now)
  }

  /** What `exec.Command` is given: the program, its arguments and its working directory. */
  datatype Command = Command(program: string, args: seq<string>, dir: Option<string>)

  const CompletionToken: string := "<promise>COMPLETE</promise>"
  const BlockedToken: string := "<promise>BLOCKED</promise>"

  predicate ContainsCompletionToken(text: string)
    ensures ContainsCompletionToken(text) <==> exists i :: Text.OccursAt(text, CompletionToken, i)
  {
    Text.Contains(text, CompletionToken)
  }

  predicate ContainsBlockedToken(text: string)
    ensures ContainsBlockedToken(text) <==> exists i :: Text.OccursAt(text, BlockedToken, i)
  {
    Text.Contains(text, BlockedToken)
  }

  /** Neither token occurs inside the other, so the two checks are independent. */
  lemma {:induction false} TokensIndependent()
    ensures CompletionToken != BlockedToken
    ensures !ContainsBlockedToken(CompletionToken)
    ensures !ContainsCompletionToken(BlockedToken)
  {
    // The shorter token (26 bytes) fits in the longer (27) at offsets 0
    // and 1 only, and at both the byte after "<promise>" differs.
    forall i | 0 <= i <= 1 ensures !Text.OccursAt(CompletionToken, BlockedToken, i) {
      assert CompletionToken[i + 9] != BlockedToken[9];
    }
  }
}
