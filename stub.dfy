/**
 * The stub dispatcher used when no dispatcher URL is configured: `ready` and
 * `destroy` succeed, `startTest` and `finishTest` fail with the configured
 * message whatever they are given.
 */
module Stub {
  import opened Wrappers
  import opened Json
  import opened Sockets

  datatype StubDispatcher = StubDispatcher(msg: string)

  /** `ready`: an already resolved promise. */
  function StubReady(d: StubDispatcher): (r: Settlement)
    ensures r.Resolved?
  {
    Resolved(Payload(None))
  }

  /** `errorStub(msg)` called with any arguments: throws `new Error(msg)`. */
  function ErrorStub(d: StubDispatcher, sessionId: string, testName: Json): (r: Settlement)
    ensures r.Rejected? && r.reason == d.msg
  {
    Rejected(d.msg)
  }

  /** `startTest`: the error stub. */
  function StubStartTest(d: StubDispatcher, sessionId: string, testName: Json): (r: Settlement)
    ensures r.Rejected? && r.reason == d.msg
  {
    ErrorStub(d, sessionId, testName)
  }

  /** `finishTest`: the error stub. */
  function StubFinishTest(d: StubDispatcher, sessionId: string, testName: Json): (r: Settlement)
    ensures r.Rejected? && r.reason == d.msg
  {
    ErrorStub(d, sessionId, testName)
  }

  /** `destroy`: resolves without error. */
  function StubDestroy(d: StubDispatcher): (r: Settlement)
    ensures r.Resolved?
  {
    Resolved(Payload(None))
  }

  /** The stub's test actions do not look at their arguments. */
  lemma StubIgnoresArguments(d: StubDispatcher, s1: string, n1: Json, s2: string, n2: Json)
    ensures StubStartTest(d, s1, n1) == StubStartTest(d, s2, n2) == StubFinishTest(d, s1, n1)
  {
  }
}
