/**
 * `readDatabase` and `updateDatabase` of src/lib/databaseUtils.ts over the file
 * `public/data/database.json`. A transform that throws is `None`; a failed write
 * leaves the file as it was, and both failures return a fresh read.
 */
module Database {
  import opened Wrappers
  import opened StoreTypes

  /** The database file: unreadable or not JSON, or a stored document. */
  datatype DbFile = Unreadable | Saved(store: Store)

  /** Lines 62-74: the stored document, or the empty one when reading or parsing fails. */
  function ReadDatabase(f: DbFile): Store {
    match f
    case Unreadable => EmptyStore
    case Saved(store) => store
  }

  /** Lines 76-88: the file afterwards and the value returned. */
  function Update(f: DbFile, fn: Store -> Option<Store>, writeSucceeds: bool): (DbFile, Store) {
    match fn(ReadDatabase(f))
    case None => (f, ReadDatabase(f))
    case Some(updated) => if writeSucceeds then (Saved(updated), updated) else (f, ReadDatabase(f))
  }

  /** A transform that cannot throw. */
  function Lift(g: Store -> Store): Store -> Option<Store> {
    d => Some(g(d))
  }

  class StoreFile {
    var file: DbFile

    constructor (file: DbFile)
      ensures this.file == file
    {
      this.file := file;
    }

    function Read(): Store
      reads this
    {
      ReadDatabase(file)
    }

    method UpdateDatabase(fn: Store -> Option<Store>, writeSucceeds: bool) returns (r: Store)
      modifies this
      ensures (file, r) == Update(old(file), fn, writeSucceeds)
      ensures writeSucceeds && fn(old(Read())).Some? ==> Read() == r == fn(old(Read())).value
      ensures !writeSucceeds || fn(old(Read())).None? ==> file == old(file) && r == Read()
    {
      var data := ReadDatabase(file);
      var updated := fn(data);
      if updated.None? {
        return ReadDatabase(file);
      }
      if writeSucceeds {
        file := Saved(updated.value);
        r := updated.value;
      } else {
        r := ReadDatabase(file);
      }
    }
  }

  /** A file that cannot be read behaves as the empty database. */
  lemma ReadFallback()
    ensures ReadDatabase(Unreadable) == Store(map[], map[], [])
  {
  }

  /** On success the transform's value is stored and returned. */
  lemma UpdateStores(f: DbFile, fn: Store -> Option<Store>)
    requires fn(ReadDatabase(f)).Some?
    ensures var (f', r) := Update(f, fn, true);
      ReadDatabase(f') == r == fn(ReadDatabase(f)).value
  {
  }

  /** A failed write or a throwing transform leaves the file alone and returns a fresh read. */
  lemma UpdateFailureKeepsFile(f: DbFile, fn: Store -> Option<Store>, writeSucceeds: bool)
    requires !writeSucceeds || fn(ReadDatabase(f)).None?
    ensures Update(f, fn, writeSucceeds) == (f, ReadDatabase(f))
  {
  }

  /** Two successful updates in a row store the composition of their transforms. */
  lemma UpdateCompose(f: DbFile, g: Store -> Store, h: Store -> Store)
    ensures var (f1, _) := Update(f, Lift(g), true);
      var (f2, r) := Update(f1, Lift(h), true);
      ReadDatabase(f2) == r == h(g(ReadDatabase(f)))
  {
  }

  /** The identity transform leaves what is read unchanged, whether or not the write succeeds. */
  lemma UpdateIdentity(f: DbFile, writeSucceeds: bool)
    ensures var (f', r) := Update(f, Lift(d => d), writeSucceeds);
      ReadDatabase(f') == r == ReadDatabase(f)
  {
  }
}
