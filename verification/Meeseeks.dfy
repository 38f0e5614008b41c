/** meeseeks/meeseeks.go: the values that travel through the dispatcher. */
module Meeseeks {
  import opened Bytes
  import opened Keys

  datatype Request = Request(
    command: Text,
    args: seq<Text>,
    username: Text,
    userID: Text,
    userLink: Text,
    channel: Text,
    channelID: Text,
    channelLink: Text,
    isIM: bool)

  const RUNNING := "Running"
  const FAILED := "Failed"
  const KILLED := "Killed"
  const SUCCESSFUL := "Successful"

  /** Times are seconds; the zero time is 0. */
  datatype Job = Job(id: uint64, request: Request, startTime: int, endTime: int, status: string)

  /** A command as far as dispatching looks at it; conn tells which agent connection a remote one is bound to. */
  datatype Command = Command(
    name: Text,
    authStrategy: string,
    allowedGroups: seq<Text>,
    channelStrategy: string,
    allowedChannels: seq<Text>,
    handshake: bool,
    record: bool,
    conn: nat)
}
