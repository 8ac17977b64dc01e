/**
 * The folder picker of the settings tab (FolderSuggest.ts): it lists the
 * vault's folder paths once, suggests those whose lower-cased path
 * contains the lower-cased query, and puts a chosen one into the field.
 */
module FolderSuggest {
  import Text

  /** `folder.toLowerCase().includes(query.toLowerCase())`. */
  predicate Matches(folder: string, query: string) {
    Text.Includes(Text.ToLower(folder), Text.ToLower(query))
  }

  /** `getSuggestions`: the matching folders, in the order the vault listed them. */
  function Suggestions(folders: seq<string>, query: string): (r: seq<string>)
    ensures |r| <= |folders|
    ensures forall f :: f in r <==> f in folders && Matches(f, query)
  {
    if folders == [] then []
    else (if Matches(folders[0], query) then [folders[0]] else []) + Suggestions(folders[1..], query)
  }

  /** Filtering keeps the order: the suggestions of a split list are those of each part, in turn. */
  lemma {:induction false} SuggestionsOfConcat(xs: seq<string>, ys: seq<string>, query: string)
    ensures Suggestions(xs + ys, query) == Suggestions(xs, query) + Suggestions(ys, query)
  {
    if xs == [] {
      assert xs + ys == ys;
    } else {
      assert (xs + ys)[0] == xs[0];
      assert (xs + ys)[1..] == xs[1..] + ys;
      SuggestionsOfConcat(xs[1..], ys, query);
    }
  }

  /** A folder occurs among the suggestions as often as in the list when it matches, else not at all. */
  lemma {:induction false} SuggestionsCount(folders: seq<string>, query: string, f: string)
    ensures multiset(Suggestions(folders, query))[f] == if Matches(f, query) then multiset(folders)[f] else 0
  {
    if folders != [] {
      var rest := Suggestions(folders[1..], query);
      SuggestionsCount(folders[1..], query, f);
      assert folders == [folders[0]] + folders[1..];
      if Matches(folders[0], query) {
        assert Suggestions(folders, query) == [folders[0]] + rest;
      } else {
        assert Suggestions(folders, query) == rest;
      }
    }
  }

  /** The empty query suggests every folder. */
  lemma {:induction false} EmptyQuerySuggestsAll(folders: seq<string>)
    ensures Suggestions(folders, "") == folders
  {
    if folders != [] {
      EmptyQuerySuggestsAll(folders[1..]);
      assert Text.ToLower("") == "";
      assert Text.Includes(Text.ToLower(folders[0]), "");
    }
  }

  /** The case of the query does not matter: a query and its lower-cased form suggest the same folders. */
  lemma {:induction false} QueryCaseInsensitive(folders: seq<string>, query: string)
    ensures Suggestions(folders, Text.ToLower(query)) == Suggestions(folders, query)
  {
    Text.ToLowerIdempotent(query);
    if folders != [] {
      QueryCaseInsensitive(folders[1..], query);
    }
  }

  class FolderSuggest {
    /** The vault's folder paths, root included, as listed when the picker was made. */
    const folders: seq<string>
    /** The text field the picker serves. */
    var value: string

    constructor(folders: seq<string>, value: string)
      ensures this.folders == folders && this.value == value
    {
      this.folders := folders;
      this.value := value;
    }

    /** `selectSuggestion`: the chosen folder becomes the field's value. */
    method Select(chosen: string)
      modifies this
      ensures value == chosen
    {
      value := chosen;
    }
  }
}
