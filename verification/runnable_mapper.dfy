/**
 * Runnable-to-command-name mappers. A mapper turns the class name of a
 * runnable service into the name of the console command that wraps it. The
 * map-backed mapper looks the class name up in a table fixed when it is
 * built.
 */
module RunnableMapper {
  import opened Errors

  /** `RunnableToNameMapper::map`: a runnable class name to a command name, or an error. */
  type NameMapper = string -> Result<string>

  /** `DsMapRunnableToNameMapper`: a mapper over a fixed table from runnable class to command name. */
  datatype DsMapMapper = DsMapMapper(names: map<string, string>) {
    /** The stored name of a mapped class; an unmapped class fails. */
    function Map(fqn: string): (r: Result<string>)
      ensures r.Ok? <==> fqn in names
      ensures r.Ok? ==> r.value == names[fqn]
      ensures r.Err? ==> r.error == RunnableNotMapped(fqn)
    {
      if fqn !in names then Err(RunnableNotMapped(fqn)) else Ok(names[fqn])
    }

    /** The mapper as the pass sees it: only its `map` operation. */
    function AsMapper(): NameMapper {
      fqn => Map(fqn)
    }
  }

  /**
   * The names a map-backed mapper can produce are exactly the table's
   * values: each value is produced for some class, and nothing else is.
   */
  lemma MappedNamesAreValues(m: DsMapMapper, name: string)
    ensures (exists fqn :: m.Map(fqn) == Ok(name)) <==> name in m.names.Values
  {
    if name in m.names.Values {
      var fqn :| fqn in m.names && m.names[fqn] == name;
      assert m.Map(fqn) == Ok(name);
    }
  }
}
