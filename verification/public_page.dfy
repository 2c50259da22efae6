/** What the two stand-alone pages share: looking the record named in the
    query string up in the stored list once the list has loaded, and
    choosing what to show from the loading flag, the error and the record. */
module PublicPage {
  import opened Wrappers
  import Lists

  datatype Page<T> = Page(item: Option<T>, error: string, isLoading: bool)

  /** A page as first rendered: loading, no error, no record. */
  function Loading<T>(): Page<T> { Page(None, "", true) }

  /** The error for an id that names no stored record. */
  function NotFound(noun: string, id: string): string {
    "Error: " + noun + " with ID \"" + id + "\" was not found."
  }

  /** The error's quoted id is the id looked up. */
  lemma NotFoundQuotesId(noun: string, id: string)
    ensures var e := NotFound(noun, id);
            var at := |"Error: "| + |noun| + |" with ID \""|;
            at + |id| <= |e| && e[at..at + |id|] == id
  {
    var e := NotFound(noun, id);
    var at := |"Error: "| + |noun| + |" with ID \""|;
    assert e == ("Error: " + noun + " with ID \"") + id + ("\" was not found.");
  }

  /** The lookup effect. `param` is the query parameter (`None` when it is
      absent); an empty one counts as missing. While the list is empty the
      effect does nothing, leaving the page loading. */
  function Lookup<T>(p: Page<T>, param: Option<string>, items: seq<T>, key: T -> string,
                     missing: string, noun: string): (r: Page<T>)
    ensures param.None? || param.value == "" ==> r == p.(error := missing, isLoading := false)
    ensures param.Some? && param.value != "" && items == [] ==> r == p
    ensures param.Some? && param.value != "" && items != [] ==>
              && !r.isLoading
              && (Lists.Find(items, key, param.value).Some? ==>
                    r.item == Lists.Find(items, key, param.value) && r.error == p.error)
              && (Lists.Find(items, key, param.value).None? ==>
                    r.item == p.item && r.error == NotFound(noun, param.value))
  {
    match param
    case None => p.(error := missing, isLoading := false)
    case Some(id) =>
      if id == "" then p.(error := missing, isLoading := false)
      else if |items| > 0 then
        match Lists.Find(items, key, id)
        case Some(found) => p.(item := Some(found), isLoading := false)
        case None => p.(error := NotFound(noun, id), isLoading := false)
      else p
  }

  datatype Screen<T> = Spinner | ErrorText(message: string) | CouldNotLoad | Content(item: T)

  /** Loading first, then the error, then a missing record, then the record. */
  function Render<T>(p: Page<T>): (s: Screen<T>)
    ensures s.Spinner? <==> p.isLoading
    ensures s.ErrorText? <==> !p.isLoading && p.error != ""
    ensures s.ErrorText? ==> s.message == p.error
    ensures s.CouldNotLoad? <==> !p.isLoading && p.error == "" && p.item.None?
    ensures s.Content? ==> p.item == Some(s.item)
  {
    if p.isLoading then Spinner
    else if p.error != "" then ErrorText(p.error)
    else if p.item.None? then CouldNotLoad
    else Content(p.item.value)
  }

  /** From a freshly loaded page, one run of the effect shows the spinner,
      an error, or the stored record with the requested id; the "could not
      load" fallback is not reached. */
  lemma FirstLookupNeverFallsBack<T>(param: Option<string>, items: seq<T>, key: T -> string,
                                     missing: string, noun: string)
    requires missing != ""
    ensures var s := Render(Lookup(Loading(), param, items, key, missing, noun));
            && !s.CouldNotLoad?
            && (s.Content? ==> param.Some? && s.item in items && key(s.item) == param.value)
  {
    var p := Lookup(Loading(), param, items, key, missing, noun);
    if param.Some? && param.value != "" && items != [] && Lists.Find(items, key, param.value).None? {
      assert p.error == NotFound(noun, param.value);
      assert |p.error| > 0;
    }
  }
}
