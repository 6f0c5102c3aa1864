/** Names and small values shared by the master, the gateway and the agents. */
module Types {

  datatype Option<+T> = None | Some(value: T)

  type AgentId = string
  type ReqId = string

  /** What one run of a script on an agent produced (executor.Result). */
  datatype Outcome = Outcome(exitCode: int, output: string, error: string)

  function Last<T>(s: seq<T>): T
    requires s != []
  {
    s[|s| - 1]
  }

  function Front<T>(s: seq<T>): seq<T>
    requires s != []
  {
    s[..|s| - 1]
  }

  function Min(a: int, b: int): int {
    if a < b then a else b
  }

  /** The sequence s without its element at position i. */
  function Without<T>(s: seq<T>, i: nat): seq<T>
    requires i < |s|
  {
    s[..i] + s[i + 1..]
  }

  function Reversed<T>(s: seq<T>): (r: seq<T>)
    ensures |r| == |s|
    ensures forall i :: 0 <= i < |s| ==> r[i] == s[|s| - 1 - i]
  {
    seq(|s|, i requires 0 <= i < |s| => s[|s| - 1 - i])
  }

  /** The last n elements of s, or all of s when it is shorter. */
  function Newest<T>(s: seq<T>, n: nat): seq<T> {
    if |s| > n then s[|s| - n..] else s
  }
}
