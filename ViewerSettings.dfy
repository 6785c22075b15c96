/** The adapter's small value-level helpers: the chat history lookup and the flag defaults. */
module ViewerSettings {
  import opened Nullable

  /**
   * `CallGetMessageFromHistory`: the message at `index` in the chat
   * manager's history, or the empty string when `index` is at or past its end.
   */
  function MessageFromHistory(messages: seq<string>, index: int): (message: string)
    requires index >= 0
    ensures index < |messages| ==> message == messages[index]
    ensures index >= |messages| ==> message == ""
  {
    if index < |messages| then messages[index] else ""
  }

  /** A flag argument, or `default` when the host passed null or "". */
  function FlagOrDefault(flag: Option<string>, default: string): (r: string)
    requires default != ""
    ensures r != ""
    ensures IsNullOrEmpty(flag) ==> r == default
    ensures !IsNullOrEmpty(flag) ==> r == flag.value
  {
    if IsNullOrEmpty(flag) then default else flag.value
  }

  /** `CallSetTickOn`: the value written to the viewer's `TickOn`; a missing flag means "true". */
  function TickOnValue(flag: Option<string>): (r: string)
    ensures r != ""
    ensures IsNullOrEmpty(flag) ==> r == "true"
    ensures !IsNullOrEmpty(flag) ==> r == flag.value
  {
    FlagOrDefault(flag, "true")
  }

  /** `CallSetFixDirectional`: the value written to the viewer's `FixDirectional`; a missing flag means "false". */
  function FixDirectionalValue(flag: Option<string>): (r: string)
    ensures r != ""
    ensures IsNullOrEmpty(flag) ==> r == "false"
    ensures !IsNullOrEmpty(flag) ==> r == flag.value
  {
    FlagOrDefault(flag, "false")
  }
}
