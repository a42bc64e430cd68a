/** The administrator seed of src/lib/adminSetup.ts. */
module AdminSetup {
  import opened Wrappers
  import opened StoreTypes
  import Database

  const AdminEmail := "admin@example.com"
  const AdminRecord := AdminUserData(AdminEmail, "Admin User", "adminpassword")

  /** Lines 7-18: the seeded administrator record replaces any entry under the email. */
  function SeedTransform(d: Store): Store {
    d.(adminUsers := d.adminUsers[AdminEmail := AdminRecord])
  }

  function SeedFn(): Store -> Option<Store> {
    d => Some(SeedTransform(d))
  }

  /** Lines 3-21: the update runs only when no administrator is stored under the email. */
  method SetupAdminUser(db: Database.StoreFile, writeSucceeds: bool)
    modifies db
    ensures AdminEmail in old(db.Read()).adminUsers ==> db.file == old(db.file)
    ensures AdminEmail !in old(db.Read()).adminUsers ==>
      db.file == Database.Update(old(db.file), SeedFn(), writeSucceeds).0
  {
    var data := db.Read();
    if AdminEmail !in data.adminUsers {
      var _ := db.UpdateDatabase(SeedFn(), writeSucceeds);
    }
  }

  /** The seeded record, and nothing else changes. */
  lemma SeedEffect(d: Store)
    ensures var d' := SeedTransform(d);
      && d'.adminUsers[AdminEmail] == AdminUserData(AdminEmail, "Admin User", "adminpassword")
      && d'.adminUsers.Keys == d.adminUsers.Keys + {AdminEmail}
      && (forall e :: e in d.adminUsers && e != AdminEmail ==> d'.adminUsers[e] == d.adminUsers[e])
      && d'.users == d.users && d'.adminOrders == d.adminOrders
  {
  }

  /** The file a seed run leaves behind. */
  function SetupResult(f: Database.DbFile, writeSucceeds: bool): Database.DbFile {
    if AdminEmail in Database.ReadDatabase(f).adminUsers then f else Database.Update(f, SeedFn(), writeSucceeds).0
  }

  /** Running the seed twice leaves the same database content as running it once. */
  lemma SetupIdempotent(f: Database.DbFile, first: bool, second: bool)
    ensures Database.ReadDatabase(SetupResult(SetupResult(f, first), second))
      == Database.ReadDatabase(SetupResult(f, first || second))
  {
  }
}
