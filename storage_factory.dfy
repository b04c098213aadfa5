/** The storage factory (lib/storage/index.ts). */
module StorageFactory {
  import opened Wrappers
  import opened Strings
  import opened Types
  import opened LocalStorage
  import opened SqlAdapter

  /** `type || process.env.NEXT_PUBLIC_STORAGE_TYPE || 'localStorage'`. */
  function StorageType(requested: Option<string>, envStorageType: Option<string>): string {
    OrElse(requested, OrElse(envStorageType, "localStorage"))
  }

  /** The adapter `createStorageAdapter` returns. */
  datatype Adapter = LocalAdapter(local: LocalStorageAdapter) | SqlStorage(sql: SQLAdapter)

  /** Only the exact name "sql" selects the SQL adapter; every other name, "localStorage" or
      unknown, falls to the browser adapter. A non-empty argument decides over the environment. */
  lemma StorageTypeChoice(requested: Option<string>, envStorageType: Option<string>)
    ensures requested.Some? && requested.value != "" ==> StorageType(requested, envStorageType) == requested.value
    ensures (requested.None? || requested.value == "") && envStorageType.Some? && envStorageType.value != "" ==>
              StorageType(requested, envStorageType) == envStorageType.value
    ensures (requested.None? || requested.value == "") && (envStorageType.None? || envStorageType.value == "") ==>
              StorageType(requested, envStorageType) == "localStorage"
  {
  }

  /** `createStorageAdapter(type?)`. The browser adapter starts on the storage contents
      `initial`; the SQL adapter reads `DATABASE_URL` from the environment. */
  method CreateStorageAdapter(requested: Option<string>, envStorageType: Option<string>,
                              envDatabaseUrl: Option<string>, initial: Items, quotaExceeded: bool,
                              sessionCodec: Codec<SessionState>, indexCodec: Codec<seq<string>>)
    returns (a: Adapter)
    requires Lawful(sessionCodec) && Lawful(indexCodec)
    ensures a.SqlStorage? <==> StorageType(requested, envStorageType) == "sql"
    ensures a.SqlStorage? ==> fresh(a.sql) && a.sql.connectionString == OrElse(envDatabaseUrl, "")
    ensures a.LocalAdapter? ==>
              && fresh(a.local) && a.local.Valid() && a.local.items == initial
              && a.local.quotaExceeded == quotaExceeded
              && a.local.sessionCodec == sessionCodec && a.local.indexCodec == indexCodec
  {
    if StorageType(requested, envStorageType) == "sql" {
      var s := new SQLAdapter(None, envDatabaseUrl);
      a := SqlStorage(s);
    } else {
      var l := new LocalStorageAdapter(initial, quotaExceeded, sessionCodec, indexCodec);
      a := LocalAdapter(l);
    }
  }
}
