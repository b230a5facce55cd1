/** The roles a resource can have. */
module Roles {
  import opened Options

  datatype Role = Llm | Sql | Vector | Browser | Agent

  function RoleText(r: Role): string {
    match r
    case Llm => "llm"
    case Sql => "sql"
    case Vector => "vector"
    case Browser => "browser"
    case Agent => "agent"
  }

  lemma {:induction false} RoleTextsDiffer(a: Role, b: Role)
    requires a != b
    ensures RoleText(a) != RoleText(b)
  {
    assert RoleText(a)[0] != RoleText(b)[0];
  }

  lemma {:induction false} RoleTextPlain(r: Role)
    ensures '-' !in RoleText(r) && ':' !in RoleText(r)
  {
  }

  /** The role that a text names, if any. */
  function RoleOfText(text: string): Option<Role> {
    if text == "llm" then Some(Llm)
    else if text == "sql" then Some(Sql)
    else if text == "vector" then Some(Vector)
    else if text == "browser" then Some(Browser)
    else if text == "agent" then Some(Agent)
    else None
  }
}
