/** The `RPCHandler` record shared by client and server, and the handler
    table both keep: a map from command name to its registration. */
module Rpc {

  /** One registration: the command name, the callback, and the dotted class
      path of the schema class the command's messages use. The callback type
      differs between server (request instance to reply) and client (response
      body to nothing). */
  datatype RpcHandler<C> = RpcHandler(cmd: string, cb: C, classpath: string)

  /** `handler.handle(instance)`: the registered callback applied to the instance. */
  function Handle<I, R>(h: RpcHandler<I -> R>, instance: I): R
  {
    h.cb(instance)
  }

  /** Every entry is filed under its own command name. */
  ghost predicate WellKeyed<C>(table: map<string, RpcHandler<C>>)
  {
    forall k :: k in table ==> table[k].cmd == k
  }

  /** `set_handler(cmd, cb, classpath)`: files a new registration under `cmd`,
      replacing any earlier one and leaving every other entry as it was. */
  function SetHandler<C>(table: map<string, RpcHandler<C>>, cmd: string, cb: C, classpath: string)
    : (t: map<string, RpcHandler<C>>)
    ensures t.Keys == table.Keys + {cmd}
    ensures t[cmd].cmd == cmd && t[cmd].cb == cb && t[cmd].classpath == classpath
    ensures forall k :: k in table && k != cmd ==> t[k] == table[k]
    ensures WellKeyed(table) ==> WellKeyed(t)
  {
    table[cmd := RpcHandler(cmd, cb, classpath)]
  }

  /** Handling an instance runs the callback the handler was built with, and
      the accessors return the constructor's arguments. */
  lemma HandleRunsCallback<I, R>(cmd: string, cb: I -> R, classpath: string, instance: I)
    ensures Handle(RpcHandler(cmd, cb, classpath), instance) == cb(instance)
    ensures RpcHandler(cmd, cb, classpath).cmd == cmd
    ensures RpcHandler(cmd, cb, classpath).cb == cb
    ensures RpcHandler(cmd, cb, classpath).classpath == classpath
  {
  }

  /** Registering under the same name twice keeps only the second registration. */
  lemma SetHandlerOverwrites<C>(table: map<string, RpcHandler<C>>, cmd: string, cb1: C, p1: string, cb2: C, p2: string)
    ensures SetHandler(SetHandler(table, cmd, cb1, p1), cmd, cb2, p2) == SetHandler(table, cmd, cb2, p2)
  {
  }
}
