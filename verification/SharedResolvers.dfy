/** What concurrent attempts assign, given that they share one resolver of each kind. */
module SharedResolvers {
  import opened Common
  import opened Documents
  import opened Errors
  import opened Patches
  import Flights

  type Resolve = string -> Result<int64, Error>

  /** Some caller of the resolver asked for the name and got an object with the ID. */
  predicate Answered(s: Flights.State, name: string, id: int) {
    exists c | 0 <= c < |s.callers| ::
      && s.callers[c].name == name && s.callers[c].returned.Some? && s.callers[c].returned.value.Ok?
      && s.callers[c].returned.value.value.id == id
  }

  /** Every name the attempt resolved was answered by the resolver. */
  ghost predicate From(s: Flights.State, resolve: Resolve) {
    forall name | resolve(name).Ok? :: Answered(s, name, resolve(name).value)
  }

  /** Over a whole run of a resolver, two attempts, however they interleave, get the same ID
      exactly for the same name. */
  lemma SameNameSameId(s: Flights.State, a: Resolve, b: Resolve, n: string, m: string)
    requires Flights.Reachable(s) && From(s, a) && From(s, b) && a(n).Ok? && b(m).Ok?
    ensures a(n).value == b(m).value <==> n == m
  {
    hide Flights.Reachable;
    assert Answered(s, n, a(n).value) && Answered(s, m, b(m).value);
    var c: nat :| c < |s.callers| && s.callers[c].name == n && s.callers[c].returned.Some? && s.callers[c].returned.value.Ok?
                  && s.callers[c].returned.value.value.id == a(n).value;
    var d: nat :| d < |s.callers| && s.callers[d].name == m && s.callers[d].returned.Some? && s.callers[d].returned.value.Ok?
                  && s.callers[d].returned.value.value.id == b(m).value;
    Flights.SuccessesAgree(s, c, d);
  }

  /** Two documents whose patches were built and applied have the same correspondent exactly when
      their facts name the same. */
  lemma SameCorrespondent(s: Flights.State, d: Document, e: Document, f: Facts, g: Facts, r: Resolutions, q: Resolutions,
                          removed: set<int64>)
    requires Flights.Reachable(s) && From(s, r.correspondent) && From(s, q.correspondent)
    requires f.correspondent.Some? && f.correspondent.value != "" && g.correspondent.Some? && g.correspondent.value != ""
    requires FactsPatch(d, f, r, removed).Ok? && FactsPatch(e, g, q, removed).Ok?
    ensures Apply(d, FactsPatch(d, f, r, removed).value).correspondent == Apply(e, FactsPatch(e, g, q, removed).value).correspondent
            <==> f.correspondent.value == g.correspondent.value
  {
    hide Flights.Reachable, From, FactsPatch, Apply;
    PatchMeaning(d, f, r, removed);
    PatchMeaning(e, g, q, removed);
    SameNameSameId(s, r.correspondent, q.correspondent, f.correspondent.value, g.correspondent.value);
  }

  /** A tag that one attempt set and another unset under the same name is one tag: the document of
      the first has it, and that of the second does not, whatever else their facts say of it. */
  lemma SameTag(s: Flights.State, d: Document, e: Document, f: Facts, g: Facts, r: Resolutions, q: Resolutions,
                name: string, removed: set<int64>)
    requires Flights.Reachable(s) && From(s, r.tagToSet) && From(s, r.tagToUnset) && From(s, q.tagToUnset)
    requires name in f.setTags && name !in f.unsetTags && name in g.unsetTags
    requires FactsPatch(d, f, r, removed).Ok? && FactsPatch(e, g, q, removed).Ok?
    requires r.tagToSet(name).Ok? && r.tagToSet(name).value !in removed
    ensures var id := r.tagToSet(name).value;
            && id in Apply(d, FactsPatch(d, f, r, removed).value).tags
            && id !in Apply(e, FactsPatch(e, g, q, removed).value).tags
  {
    hide Flights.Reachable, From, FactsPatch, Apply;
    var id := r.tagToSet(name).value;
    PatchMeaning(d, f, r, removed);
    PatchMeaning(e, g, q, removed);
    var after, gone := Apply(d, FactsPatch(d, f, r, removed).value), Apply(e, FactsPatch(e, g, q, removed).value);
    SameNameSameId(s, r.tagToSet, q.tagToUnset, name, name);
    forall n | n in f.unsetTags && r.tagToUnset(n).Ok?
      ensures r.tagToUnset(n).value != id
    {
      SameNameSameId(s, r.tagToSet, r.tagToUnset, name, n);
    }
    assert id in ResolvedIds(f.setTags, r.tagToSet) && id !in ResolvedIds(f.unsetTags, r.tagToUnset);
    assert id in Elements(after.tags) && id in ResolvedIds(g.unsetTags, q.tagToUnset) && id !in Elements(gone.tags);
  }
}
