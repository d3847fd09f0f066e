/**
 * The table of library importers, keyed by format name without regard to case. An importer is
 * known here only by its `format_name` and its identity; what it does is the importer's business.
 */
module ImporterRegistries {
  import opened Wrappers
  import opened Sequences
  import opened OrderedDicts
  import opened Text

  /** A registered importer: its `format_name` and which importer object it is. */
  datatype Importer = Importer(formatName: string, handle: nat)

  class ImporterRegistry {
    var importers: ODict<string, Importer>

    /** Every importer is stored under its own lower-cased format name. */
    ghost predicate Valid()
      reads this
    {
      importers.Valid() && forall k :: k in importers.items ==> Lower(importers.items[k].formatName) == k
    }

    /** `ImporterRegistry()`: an empty table. */
    constructor ()
      ensures Valid() && importers == Empty()
    {
      importers := Empty();
    }

    /**
     * `register`: the importer is stored under its lower-cased format name, replacing an importer whose
     * name differs from it only in case, in that importer's place; every other name finds what it found.
     */
    method Register(importer: Importer)
      requires Valid()
      modifies this`importers
      ensures Valid()
      ensures importers == old(importers).Put(Lower(importer.formatName), importer)
      ensures GetImporter(importer.formatName) == Some(importer)
      ensures forall name :: Lower(name) != Lower(importer.formatName) ==> GetImporter(name) == old(GetImporter(name))
    {
      importers := importers.Put(Lower(importer.formatName), importer);
    }

    /**
     * `get_importer`: the importer registered under the name in any case, or nothing. A found importer's
     * own name equals the asked one up to case.
     */
    function GetImporter(formatName: string): (r: Option<Importer>)
      reads this
      ensures r.Some? <==> Lower(formatName) in importers.items
      ensures r.Some? ==> r.value == importers.items[Lower(formatName)]
      ensures Valid() && r.Some? ==> Lower(r.value.formatName) == Lower(formatName)
    {
      importers.Get(Lower(formatName))
    }

    /** `get_all_importers`: each stored importer once, in table order; no two share a name up to case. */
    function GetAllImporters(): (r: seq<Importer>)
      requires Valid()
      reads this
      ensures |r| == |importers.keys|
      ensures forall i :: 0 <= i < |r| ==> r[i] == importers.items[importers.keys[i]]
      ensures forall i, j :: 0 <= i < j < |r| ==> Lower(r[i].formatName) != Lower(r[j].formatName)
    {
      var r := importers.Values();
      assert forall i :: 0 <= i < |r| ==> Lower(r[i].formatName) == importers.keys[i];
      r
    }

    /** `get_format_names`: the stored importers' names as they were registered, in table order. */
    function GetFormatNames(): (r: seq<string>)
      requires Valid()
      reads this
      ensures |r| == |importers.keys|
      ensures forall i :: 0 <= i < |r| ==> r[i] == importers.items[importers.keys[i]].formatName
      ensures forall i :: 0 <= i < |r| ==> Lower(r[i]) == importers.keys[i]
    {
      var all := GetAllImporters();
      seq(|all|, i requires 0 <= i < |all| => all[i].formatName)
    }
  }

  /** Asking for a listed name gives back the importer listed at the same place. */
  lemma NamesFindTheirImporters(reg: ImporterRegistry)
    requires reg.Valid()
    ensures var names, all := reg.GetFormatNames(), reg.GetAllImporters();
      forall i :: 0 <= i < |names| ==> reg.GetImporter(names[i]) == Some(all[i])
  {
  }

  /** A name is found exactly when it matches a listed name up to case. */
  lemma NamesCoverTable(reg: ImporterRegistry, name: string)
    requires reg.Valid()
    ensures reg.GetImporter(name).Some? <==> exists i :: 0 <= i < |reg.GetFormatNames()| && Lower(reg.GetFormatNames()[i]) == Lower(name)
  {
    var names := reg.GetFormatNames();
    if reg.GetImporter(name).Some? {
      var i := FirstIndex(reg.importers.keys, Lower(name));
      assert Lower(names[i]) == Lower(name);
    }
  }
}
