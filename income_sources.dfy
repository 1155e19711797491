/** Where incomes come from: named sources, added by name and deleted by id. */
module IncomeSources {
  import opened JsText
  import opened Lists

  datatype IncomeSource = IncomeSource(id: string, name: string, isDefault: bool)

  function SourceId(s: IncomeSource): string { s.id }

  /** The sources `addSource(name)` leaves: the trimmed name appended, unless it is empty. */
  function WithSource(sources: seq<IncomeSource>, name: string, id: string): seq<IncomeSource> {
    var trimmed := Trim(name);
    if trimmed == [] then sources else sources + [IncomeSource(id, trimmed, false)]
  }

  /**
   * A name of white space only changes nothing; any other is stored
   * trimmed, as a user source, at the end.
   */
  lemma WithSourceSpec(sources: seq<IncomeSource>, name: string, id: string)
    ensures (forall i | 0 <= i < |name| :: IsSpace(name[i])) ==> WithSource(sources, name, id) == sources
    ensures (exists i | 0 <= i < |name| :: !IsSpace(name[i])) ==>
              var r := WithSource(sources, name, id);
              |r| == |sources| + 1 && r[..|sources|] == sources
              && r[|sources|].id == id && !r[|sources|].isDefault
              && r[|sources|].name != [] && r[|sources|].name == Trim(name)
              && !IsSpace(r[|sources|].name[0]) && !IsSpace(r[|sources|].name[|r[|sources|].name| - 1])
  {
    TrimEmpty(name);
    TrimEnds(name);
    var r := WithSource(sources, name, id);
    if Trim(name) != [] {
      assert r[..|sources|] == sources;
    }
  }

  class IncomeSourceStore {
    var sources: seq<IncomeSource>

    /** The store over the sources it was loaded with. */
    constructor (loaded: seq<IncomeSource>)
      ensures sources == loaded
    {
      sources := loaded;
    }

    /** `addSource(name)` */
    method AddSource(name: string, id: string)
      modifies this
      ensures sources == WithSource(old(sources), name, id)
    {
      var trimmed := Trim(name);
      if trimmed == [] {
        return;
      }
      sources := sources + [IncomeSource(id, trimmed, false)];
    }

    /** `deleteSource(id)`: exactly the sources of another id are kept, in their order. */
    method DeleteSource(id: string)
      modifies this
      ensures sources == WithoutId(old(sources), SourceId, id)
      ensures forall s :: s in sources <==> s in old(sources) && s.id != id
    {
      WithoutIdSpec(sources, SourceId, id);
      sources := WithoutId(sources, SourceId, id);
    }
  }
}
