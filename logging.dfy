/**
 The singleton logger of the demonstration. The C# `Logger` has no state and
 one instance, created by the runtime's static initialisation; here it is a
 datatype with a single value, and `Instance` is that value. What `Log`
 writes to the console is returned as a string.
 */
module Logging {

  /** The text `Log` puts in front of every message. */
  const LogPrefix := "[LOG]: "

  datatype Logger = Logger {

    /** The console line `Log` writes for `message`: the fixed prefix, then
        the message, with nothing else. */
    function Log(message: string): (line: string)
      ensures |line| == |LogPrefix| + |message|
      ensures line[..|LogPrefix|] == LogPrefix
      ensures line[|LogPrefix|..] == message
    {
      LogPrefix + message
    }
  }

  /** The one logger every caller reaches through `Logger.Instance`. */
  const Instance: Logger := Logger

  /** Distinct messages give distinct log lines, so the message can be read
      back from the line. */
  lemma LogIsInjective(a: string, b: string)
    ensures Instance.Log(a) == Instance.Log(b) <==> a == b
  {
    if Instance.Log(a) == Instance.Log(b) {
      assert a == Instance.Log(a)[|LogPrefix|..];
    }
  }
}
