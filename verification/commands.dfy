/** The plain-dict commands agents return to the graph: a `goto` target and
    an optional `update` of state keys. */
module Commands {
  import opened Values

  /** A command is a dict with the keys "goto" and/or "update". */
  type AgentCommand = map<string, Value>

  /** `create_goto_command(target, **updates)`: always names the target; the
      "update" key appears exactly when some update was passed, and then holds
      the updates unchanged. */
  function CreateGotoCommand(target: string, updates: map<string, Value>): (c: AgentCommand)
    ensures "goto" in c && c["goto"] == Str(target)
    ensures "update" in c <==> updates != map[]
    ensures "update" in c ==> c["update"] == Obj(updates)
    ensures c.Keys <= {"goto", "update"}
  {
    if updates != map[] then map["goto" := Str(target), "update" := Obj(updates)]
    else map["goto" := Str(target)]
  }

  /** `create_update_command(**updates)`: only an "update" key, holding the
      updates (even when there are none). */
  function CreateUpdateCommand(updates: map<string, Value>): (c: AgentCommand)
    ensures c.Keys == {"update"} && c["update"] == Obj(updates)
  {
    map["update" := Obj(updates)]
  }
}
