/**
 * The name search widget (components/SearchDomain.tsx): the rules that
 * turn a query and the completion service's reply into the result card,
 * the fallback used when the call fails, and the normalisation of the
 * suggested alternative names.
 */
module Search {
  import opened Wrappers
  import opened Strings

  datatype Alternative = Alternative(name: string, description: string)

  /** The fields of the parsed JSON reply; an empty reply text parses as `{}`, with every field absent. */
  datatype ReplyData = ReplyData(available: Option<bool>, rarity: Option<string>, vibe: Option<string>, alternatives: Option<seq<Alternative>>)

  const EmptyReplyData: ReplyData := ReplyData(None, None, None, None)

  /** The outcome of the call: parsed data, or a thrown error (from the call or from JSON parsing). */
  datatype SearchReply = Parsed(data: ReplyData) | Failed

  datatype SearchResult = SearchResult(available: bool, name: string, rarity: Option<string>, vibe: Option<string>, alternatives: Option<seq<Alternative>>)

  const FallbackVibe: string := "Ready for action on Lighter"

  /** Names of `length` below four (UTF-16 code units) are reserved, whatever the service says. */
  predicate LongEnough(query: string) {
    Utf16Length(query) > 3
  }

  /** Two characters outside the Basic Multilingual Plane already have `length` four. */
  lemma TwoAstralCharactersAreLongEnough()
    ensures LongEnough("\U{1F525}\U{1F525}") && |"\U{1F525}\U{1F525}"| == 2
  {
    assert "\U{1F525}\U{1F525}"[1..] == "\U{1F525}";
  }

  /** The result built when the call fails: a Common name with three fixed suggestions built from the raw query. */
  function FallbackResult(query: string): (r: SearchResult)
    ensures r.available <==> LongEnough(query)
    ensures r.name == Lower(query)
    ensures r.rarity == Some("Common") && r.vibe == Some(FallbackVibe)
    ensures r.alternatives.Some? && |r.alternatives.value| == 3
    ensures r.alternatives.value[0].name == "flame." + query
    ensures r.alternatives.value[1].name == "alpha." + query
    ensures r.alternatives.value[2].name == "lit." + query
  {
    SearchResult(
      LongEnough(query), Lower(query), Some("Common"), Some(FallbackVibe),
      Some([
        Alternative("flame." + query, "Heat up your trading game"),
        Alternative("alpha." + query, "For the top tier traders"),
        Alternative("lit." + query, "Keep it simple and lit")
      ]))
  }

  /**
   * The result card for `query` and the reply: on success the reply's
   * fields, with availability overridden by the length rule and the name
   * replaced by the lowercased query; on failure the fallback.
   */
  function ResultFor(query: string, reply: SearchReply): (r: SearchResult)
    ensures r.name == Lower(query) && NoUpper(r.name)
    ensures r.available ==> LongEnough(query)
    ensures reply.Parsed? ==> (r.available <==> LongEnough(query) && reply.data.available == Some(true))
    ensures reply.Parsed? ==>
      r.rarity == reply.data.rarity && r.vibe == reply.data.vibe && r.alternatives == reply.data.alternatives
    ensures reply.Failed? ==> r == FallbackResult(query)
  {
    match reply
    case Parsed(data) =>
      SearchResult(LongEnough(query) && data.available == Some(true), Lower(query), data.rarity, data.vibe, data.alternatives)
    case Failed =>
      FallbackResult(query)
  }

  /** A query of three characters or fewer is never offered for minting, on either path. */
  lemma ShortQueryNeverAvailable(query: string, reply: SearchReply)
    requires Utf16Length(query) <= 3
    ensures !ResultFor(query, reply).available
  {
  }

  /** Searching again for a result's own name gives back that name. */
  lemma ResearchKeepsName(query: string, first: SearchReply, second: SearchReply)
    ensures ResultFor(ResultFor(query, first).name, second).name == ResultFor(query, first).name
  {
    LowerIdempotent(query);
  }

  // ------------------------------------------------------------ rarity

  datatype Tier = Legendary | Rare | Common

  /** The badge style: the rarity compared case-insensitively with "legendary" and "rare"; anything else looks Common. */
  function RarityTier(rarity: string): (t: Tier)
    ensures t == Legendary <==> Lower(rarity) == "legendary"
    ensures t == Rare <==> Lower(rarity) == "rare"
    ensures t == Common <==> Lower(rarity) != "legendary" && Lower(rarity) != "rare"
  {
    if Lower(rarity) == "legendary" then Legendary
    else if Lower(rarity) == "rare" then Rare
    else Common
  }

  /** The classification ignores letter case, and the fallback's rarity is Common. */
  lemma RarityTierIgnoresCase(rarity: string)
    ensures RarityTier(Lower(rarity)) == RarityTier(rarity)
    ensures RarityTier("Common") == Common
  {
    LowerIdempotent(rarity);
    assert Lower("Common") == "common";
  }

  // -------------------------------------------------- alternative names

  const Tld: string := ".lit"

  /** The name shown on a suggestion: unchanged when it mentions ".lit" anywhere, otherwise with ".lit" appended. */
  function DisplayName(name: string): (r: string)
    ensures Contains(r, Tld)
    ensures Contains(name, Tld) ==> r == name
    ensures !Contains(name, Tld) ==> r == name + Tld
  {
    if Contains(name, Tld) then name
    else
      assert OccursAt(name + Tld, Tld, |name|);
      name + Tld
  }

  /** The query set when a suggestion is chosen: its name with the first ".lit" removed. */
  function ChosenQuery(name: string): (r: string)
    ensures !Contains(name, Tld) ==> r == name
    ensures Contains(name, Tld) ==>
      (var k := IndexOf(name, Tld).value; |r| == |name| - 4 && r == name[..k] + name[k + 4..])
  {
    ReplaceFirst(name, Tld, "")
  }

  /** ".lit" cannot straddle the end of a name free of ".lit" and the appended ".lit". */
  lemma FirstTldIsAppended(name: string)
    requires !Contains(name, Tld)
    ensures IndexOf(name + Tld, Tld) == Some(|name|)
  {
    var s := name + Tld;
    forall j | 0 <= j < |name|
      ensures !OccursAt(s, Tld, j)
    {
      if j + 4 <= |name| {
        assert s[j..j + 4] == name[j..j + 4];
        assert !OccursAt(name, Tld, j);
      } else {
        assert s[|name|] == '.' && s[j..j + 4][|name| - j] == s[|name|];
        assert Tld[|name| - j] != '.';
      }
    }
    assert OccursAt(s, Tld, |name|);
  }

  /** For a suggestion without ".lit", choosing what is displayed gives back the suggestion's name. */
  lemma ChooseUndoesDisplay(name: string)
    requires !Contains(name, Tld)
    ensures ChosenQuery(DisplayName(name)) == name
  {
    FirstTldIsAppended(name);
    assert (name + Tld)[..|name|] == name;
  }

  /**
   * Because any ".lit" counts, the fallback's "lit." suggestion for the
   * query "lite" (named "lit." + "lite") is shown as "lit.lite" with no
   * suffix, and choosing it sets the query back to "lite".
   */
  lemma LitSuggestionForLite()
    ensures DisplayName("lit." + "lite") == "lit.lite"
    ensures ChosenQuery("lit." + "lite") == "lite"
  {
    var name := "lit.lite";
    assert "lit." + "lite" == name;
    assert name[0..4] != Tld by { assert name[0..4][0] != Tld[0]; }
    assert name[1..5] != Tld by { assert name[1..5][1] != Tld[1]; }
    assert name[2..6] != Tld by { assert name[2..6][0] != Tld[0]; }
    assert name[3..7] == Tld;
    assert FindFrom(name, Tld, 0) == FindFrom(name, Tld, 1) == FindFrom(name, Tld, 2) == FindFrom(name, Tld, 3);
    assert IndexOf(name, Tld) == Some(3);
    assert Contains(name, Tld);
    assert name[..3] + name[7..] == "lite";
  }

  // -------------------------------------------------------------- view

  class SearchBox {
    var query: string
    var isSearching: bool
    var result: Option<SearchResult>
    /** The query the running search was started with (its closure's copy). */
    var searchedQuery: string

    /** A running search was started for a non-empty query, and a shown result obeys the name and length rules. */
    ghost predicate Valid()
      reads this
    {
      (isSearching ==> searchedQuery != "") &&
      (result.Some? ==> NoUpper(result.value.name) && (result.value.available ==> Utf16Length(result.value.name) > 3))
    }

    constructor ()
      ensures Valid()
      ensures query == "" && !isSearching && result == None
    {
      query, isSearching, result, searchedQuery := "", false, None, "";
    }

    /** Typing into the search field. */
    method SetQuery(q: string)
      requires Valid()
      modifies this
      ensures Valid()
      ensures query == q && isSearching == old(isSearching) && result == old(result) && searchedQuery == old(searchedQuery)
    {
      query := q;
    }

    /**
     * Submitting the form (not possible while a search runs): an empty query
     * does nothing; otherwise the search starts for the current query.
     */
    method BeginSearch() returns (started: bool)
      requires Valid() && !isSearching
      modifies this
      ensures Valid()
      ensures started <==> old(query) != ""
      ensures started ==> isSearching && searchedQuery == old(query)
      ensures !started ==> !isSearching && searchedQuery == old(searchedQuery)
      ensures query == old(query) && result == old(result)
    {
      started := query != "";
      if started {
        isSearching := true;
        searchedQuery := query;
      }
    }

    /** The reply arrives (or the call fails): the card is the result for the searched query, and searching ends. */
    method FinishSearch(reply: SearchReply)
      requires Valid() && isSearching
      modifies this
      ensures Valid()
      ensures result == Some(ResultFor(old(searchedQuery), reply))
      ensures !isSearching && query == old(query) && searchedQuery == old(searchedQuery)
    {
      var r := ResultFor(searchedQuery, reply);
      LowerKeepsUtf16Length(searchedQuery);
      result := Some(r);
      isSearching := false;
    }

    /** Choosing one of the shown suggestions: the query becomes its name without the first ".lit", and the card closes. */
    method ChooseAlternative(alt: Alternative)
      requires Valid()
      requires result.Some? && result.value.alternatives.Some? && alt in result.value.alternatives.value
      modifies this
      ensures Valid()
      ensures query == ChosenQuery(alt.name) && result == None
      ensures isSearching == old(isSearching) && searchedQuery == old(searchedQuery)
    {
      query := ChosenQuery(alt.name);
      result := None;
    }

    /** The name "mint this" hands to the root view: offered only for an available result, always lowercase and of `length` above three. */
    method MintName() returns (name: Option<string>)
      requires Valid()
      ensures name.Some? <==> result.Some? && result.value.available
      ensures name.Some? ==> name.value == result.value.name && NoUpper(name.value) && Utf16Length(name.value) > 3
    {
      if result.Some? && result.value.available {
        name := Some(result.value.name);
      } else {
        name := None;
      }
    }
  }
}
