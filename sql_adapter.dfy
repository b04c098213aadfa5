/** The SQL storage adapter (lib/storage/sqlAdapter.ts): a stub that persists nothing. */
module SqlAdapter {
  import opened Wrappers
  import opened Strings
  import opened Types

  const NotImplemented := "SQL storage not implemented. Use LocalStorageAdapter or implement this method."

  class SQLAdapter {
    /** `connectionString || process.env.DATABASE_URL || ''`. */
    const connectionString: string

    constructor(connectionString: Option<string>, envDatabaseUrl: Option<string>)
      ensures connectionString.Some? && connectionString.value != "" ==> this.connectionString == connectionString.value
      ensures (connectionString.None? || connectionString.value == "") && envDatabaseUrl.Some? ==>
                this.connectionString == envDatabaseUrl.value
      ensures (connectionString.None? || connectionString.value == "") && envDatabaseUrl.None? ==>
                this.connectionString == ""
    {
      this.connectionString := OrElse(connectionString, OrElse(envDatabaseUrl, ""));
    }

    /** `saveSession` always fails. */
    method SaveSession(session: SessionState) returns (r: Outcome<string>)
      ensures r == Fail(NotImplemented)
    {
      r := Fail(NotImplemented);
    }

    /** `loadSession` finds nothing. */
    method LoadSession(id: string) returns (r: Option<SessionState>)
      ensures r == None
    {
      r := None;
    }

    /** `deleteSession` succeeds without doing anything. */
    method DeleteSession(id: string) returns (r: Outcome<string>)
      ensures r == Pass
    {
      r := Pass;
    }

    /** `listSessions` lists nothing. */
    method ListSessions() returns (ids: seq<string>)
      ensures ids == []
    {
      ids := [];
    }
  }
}
