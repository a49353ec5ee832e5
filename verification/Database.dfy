/** The SQLite connection that every component shares.  Each statement rewrites the tables it names. */
module Database {
  import opened Types

  class Connection {
    var db: Db

    /** A migrated database without any row. */
    constructor ()
      ensures db == EMPTY
    {
      db := EMPTY;
    }

    /** What leaving a transaction by an exception does to the tables: everything is as it was `before`. */
    method Rollback(before: Db)
      modifies this
      ensures db == before
    {
      db := before;
    }

    /** `audit.record` */
    method Record(entry: Entry)
      modifies this
      ensures db == old(db).(audit := old(db).audit + [entry])
    {
      db := db.(audit := db.audit + [entry]);
    }
  }
}
