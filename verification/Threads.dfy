/** Thread items and events as the high-level API hands them out
    (crates/sdk/src/api.rs). */
module Threads {
  import opened Options

  /** Items other than agent messages, plans and reasoning. */
  datatype OtherKind = User | TodoList | ToolCall | CommandExecution | FileChange | Status | Error | Unknown

  /** `text` of an `OtherItem` stands for the markdown it renders to. */
  datatype ThreadItem =
    | AgentMessage(id: string, text: string, finalAnswer: bool)
    | Plan(id: string, text: string)
    | Reasoning(id: string, text: string)
    | OtherItem(kind: OtherKind, itemId: Option<string>, markdown: string)

  datatype Usage = Usage(input: int, cached: int, output: int)

  datatype ThreadEvent =
    | ThreadStarted(threadId: string)
    | TurnStarted
    | ItemStarted(item: ThreadItem)
    | ItemUpdated(item: ThreadItem)
    | ItemCompleted(item: ThreadItem)
    | TurnCompleted(usage: Option<Usage>)
    | TurnFailed(message: string)
    | ErrorEvent(message: string)

  /** What the pump sends its consumer: an event, or `TransportClosed`. */
  datatype Delivery = Event(event: ThreadEvent) | ClosedError
}
