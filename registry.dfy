/**
 * The root view's state (App.tsx): the wallet flag, the list of owned
 * domains with its copy in browser storage, the name whose mint wizard is
 * open, the dashboard toggle, and the four-entry live registration feed.
 */
module Registry {
  import opened Wrappers
  import opened Strings
  import MintFlow

  /** The `new Date()` stamped on a mint; the model never looks inside it. */
  type Timestamp = int

  datatype OwnedDomain = OwnedDomain(name: string, expiryYears: int, mintedAt: Timestamp, isPrimary: bool)

  /** What browser storage holds under the key "lit_domains": nothing, text that does not parse, or a saved list. */
  datatype Stored = Missing | Unreadable | Saved(domains: seq<OwnedDomain>)

  // ------------------------------------------------------- owned domains

  /** The list after a mint completes: the new entry goes at the end, primary only when it is the first. */
  function AppendMinted(domains: seq<OwnedDomain>, name: string, years: int, at: Timestamp): (r: seq<OwnedDomain>)
    ensures |r| == |domains| + 1
    ensures r[..|domains|] == domains
    ensures r[|domains|].name == name && r[|domains|].expiryYears == years && r[|domains|].mintedAt == at
    ensures r[|domains|].isPrimary <==> domains == []
  {
    domains + [OwnedDomain(name, years, at, |domains| == 0)]
  }

  /** The list after "set as primary": every entry keeps its data and is primary exactly when its name is `name`. */
  function MarkPrimary(domains: seq<OwnedDomain>, name: string): (r: seq<OwnedDomain>)
    ensures |r| == |domains|
    ensures forall i :: 0 <= i < |r| ==>
      r[i].name == domains[i].name && r[i].expiryYears == domains[i].expiryYears && r[i].mintedAt == domains[i].mintedAt
    ensures forall i :: 0 <= i < |r| ==> (r[i].isPrimary <==> domains[i].name == name)
  {
    seq(|domains|, i requires 0 <= i < |domains| => domains[i].(isPrimary := domains[i].name == name))
  }

  /** Setting the same primary twice is the same as setting it once. */
  lemma MarkPrimaryIdempotent(domains: seq<OwnedDomain>, name: string)
    ensures MarkPrimary(MarkPrimary(domains, name), name) == MarkPrimary(domains, name)
  {
  }

  /** How many entries are marked primary. */
  function PrimaryCount(domains: seq<OwnedDomain>): nat {
    if domains == [] then 0
    else PrimaryCount(domains[..|domains| - 1]) + (if domains[|domains| - 1].isPrimary then 1 else 0)
  }

  /** How many entries carry `name`. */
  function NameCount(domains: seq<OwnedDomain>, name: string): nat {
    if domains == [] then 0
    else NameCount(domains[..|domains| - 1], name) + (if domains[|domains| - 1].name == name then 1 else 0)
  }

  predicate HasName(domains: seq<OwnedDomain>, name: string) {
    exists i :: 0 <= i < |domains| && domains[i].name == name
  }

  predicate DistinctNames(domains: seq<OwnedDomain>) {
    forall i, j :: 0 <= i < j < |domains| ==> domains[i].name != domains[j].name
  }

  /** The intended registry invariant: a non-empty list has exactly one primary entry, an empty one none. */
  predicate SinglePrimary(domains: seq<OwnedDomain>) {
    PrimaryCount(domains) == if domains == [] then 0 else 1
  }

  /** A mint adds a primary entry only to an empty list. */
  lemma MintPrimaryCount(domains: seq<OwnedDomain>, name: string, years: int, at: Timestamp)
    ensures PrimaryCount(AppendMinted(domains, name, years, at)) == PrimaryCount(domains) + (if domains == [] then 1 else 0)
  {
    var r := AppendMinted(domains, name, years, at);
    assert r[..|r| - 1] == domains;
  }

  lemma MintKeepsSinglePrimary(domains: seq<OwnedDomain>, name: string, years: int, at: Timestamp)
    requires SinglePrimary(domains)
    ensures SinglePrimary(AppendMinted(domains, name, years, at))
  {
    MintPrimaryCount(domains, name, years, at);
  }

  /** After "set primary", the primary entries are exactly those named `name`. */
  lemma {:induction false} PrimaryCountAfterMark(domains: seq<OwnedDomain>, name: string)
    ensures PrimaryCount(MarkPrimary(domains, name)) == NameCount(domains, name)
    decreases |domains|
  {
    if domains != [] {
      var init := domains[..|domains| - 1];
      PrimaryCountAfterMark(init, name);
      var r := MarkPrimary(domains, name);
      assert r[..|r| - 1] == MarkPrimary(init, name);
    }
  }

  /** Distinct names occur at most once; a present name at least once, an absent one never. */
  lemma {:induction false} NameCountBounds(domains: seq<OwnedDomain>, name: string)
    ensures HasName(domains, name) <==> NameCount(domains, name) > 0
    ensures DistinctNames(domains) ==> NameCount(domains, name) <= 1
    decreases |domains|
  {
    if domains != [] {
      var init := domains[..|domains| - 1];
      var last := domains[|domains| - 1];
      NameCountBounds(init, name);
      if HasName(domains, name) && !HasName(init, name) {
        var i :| 0 <= i < |domains| && domains[i].name == name;
        assert i == |domains| - 1;
      }
      if HasName(init, name) {
        var i :| 0 <= i < |init| && init[i].name == name;
        assert domains[i].name == name;
      }
      if DistinctNames(domains) {
        assert DistinctNames(init);
        if last.name == name {
          forall i | 0 <= i < |init|
            ensures init[i].name != name
          {
            assert domains[i].name != domains[|domains| - 1].name;
          }
        }
      }
    }
  }

  /**
   * With distinct names, "set primary" on a listed name leaves exactly one
   * primary entry and on an unlisted name none.
   */
  lemma SetPrimaryExactlyOne(domains: seq<OwnedDomain>, name: string)
    requires DistinctNames(domains)
    ensures HasName(domains, name) ==> PrimaryCount(MarkPrimary(domains, name)) == 1
    ensures !HasName(domains, name) ==> PrimaryCount(MarkPrimary(domains, name)) == 0
  {
    PrimaryCountAfterMark(domains, name);
    NameCountBounds(domains, name);
  }

  lemma SetPrimaryKeepsSinglePrimary(domains: seq<OwnedDomain>, name: string)
    requires DistinctNames(domains) && HasName(domains, name)
    ensures SinglePrimary(MarkPrimary(domains, name))
  {
    SetPrimaryExactlyOne(domains, name);
  }

  /**
   * A mint does not check that the name is new, and with a repeated name
   * "set primary" marks both copies: minting "abcd" twice and then making
   * "abcd" primary leaves two primary entries.
   */
  lemma RepeatedMintBreaksSinglePrimary(at: Timestamp)
    ensures var twice := AppendMinted(AppendMinted([], "abcd", 1, at), "abcd", 1, at);
      SinglePrimary(twice) && !SinglePrimary(MarkPrimary(twice, "abcd"))
  {
    var once := AppendMinted([], "abcd", 1, at);
    var twice := AppendMinted(once, "abcd", 1, at);
    MintPrimaryCount([], "abcd", 1, at);
    MintPrimaryCount(once, "abcd", 1, at);
    PrimaryCountAfterMark(twice, "abcd");
    assert twice[..1] == once;
  }

  // ---------------------------------------------------------- live feed

  const FeedPrefixes: seq<string> := ["liquidator", "degens", "flash", "bolt", "fire", "scout", "pro", "elite", "whale", "maker"]

  const InitialFeed: seq<string> := ["trader.lit", "alpha.lit", "whale.lit", "maker.lit"]

  /**
   * A generated feed name: the chosen prefix, then the number only when it
   * is at most 500, then ".lit". The part between prefix and suffix is
   * empty or the decimal digits of the number.
   */
  function FeedName(prefixIndex: nat, num: nat): (r: string)
    requires prefixIndex < |FeedPrefixes|
    ensures var p := FeedPrefixes[prefixIndex];
      |p| + 4 <= |r| && r[..|p|] == p && EndsWith(r, ".lit")
    ensures var p := FeedPrefixes[prefixIndex]; var middle := r[|p|..|r| - 4];
      IsDigits(middle) && (middle == [] <==> num > 500) && (num <= 500 ==> DigitsValue(middle) == num)
    ensures var p := FeedPrefixes[prefixIndex];
      num <= 500 ==> r[|p|..|r| - 4] == NatToString(num)
  {
    var p := FeedPrefixes[prefixIndex];
    var middle := if num > 500 then "" else NatToString(num);
    NatToStringRoundTrip(num);
    var r := p + middle + ".lit";
    assert r[|p|..|r| - 4] == middle;
    r
  }

  /** A feed update: the new name first, then at most three of the previous names, in order. */
  function PushFeed(feed: seq<string>, name: string): (r: seq<string>)
    ensures |r| == Min(|feed| + 1, 4)
    ensures r[0] == name
    ensures forall i :: 1 <= i < |r| ==> r[i] == feed[i - 1]
  {
    [name] + feed[..Min(|feed|, 3)]
  }

  /** The feed after one update per name of `names`, oldest first. */
  function FeedAfter(feed: seq<string>, names: seq<string>): seq<string> {
    if names == [] then feed else PushFeed(FeedAfter(feed, names[..|names| - 1]), names[|names| - 1])
  }

  /**
   * A feed of four stays at four whatever names arrive; it shows the newest
   * names newest first, followed by what is left of the starting feed.
   */
  lemma {:induction false} FeedWindow(feed: seq<string>, names: seq<string>)
    requires |feed| == 4
    ensures |FeedAfter(feed, names)| == 4
    ensures forall i :: 0 <= i < Min(|names|, 4) ==> FeedAfter(feed, names)[i] == names[|names| - 1 - i]
    ensures forall i :: |names| <= i < 4 ==> FeedAfter(feed, names)[i] == feed[i - |names|]
    decreases |names|
  {
    if names != [] {
      var init := names[..|names| - 1];
      FeedWindow(feed, init);
      var before := FeedAfter(feed, init);
      var after := FeedAfter(feed, names);
      assert after == PushFeed(before, names[|names| - 1]);
      forall i | 1 <= i < Min(|names|, 4)
        ensures after[i] == names[|names| - 1 - i]
      {
        assert after[i] == before[i - 1] == init[|init| - 1 - (i - 1)];
      }
    }
  }

  // --------------------------------------------------------------- view

  class App {
    var walletConnected: bool
    var ownedDomains: seq<OwnedDomain>
    var activeMint: Option<string>
    var showProfile: bool
    var liveMints: seq<string>
    var storage: Stored

    /** The feed holds four names, and storage holds the owned list once anything was saved. */
    ghost predicate Valid()
      reads this
    {
      |liveMints| == 4 &&
      (if storage.Saved? then storage.domains == ownedDomains else ownedDomains == [])
    }

    /** First render plus the mount effect: the owned list is restored from storage when it parses. */
    constructor (initial: Stored)
      ensures Valid()
      ensures !walletConnected && activeMint == None && !showProfile
      ensures liveMints == InitialFeed && storage == initial
      ensures ownedDomains == if initial.Saved? then initial.domains else []
    {
      walletConnected := false;
      activeMint := None;
      showProfile := false;
      liveMints := InitialFeed;
      storage := initial;
      ownedDomains := if initial.Saved? then initial.domains else [];
    }

    method Connect()
      requires Valid()
      modifies this
      ensures Valid() && walletConnected
      ensures ownedDomains == old(ownedDomains) && activeMint == old(activeMint) && showProfile == old(showProfile)
      ensures liveMints == old(liveMints) && storage == old(storage)
    {
      walletConnected := true;
    }

    /** The search widget's "mint this" opens the wizard for `name`. */
    method OpenMint(name: string)
      requires Valid()
      modifies this
      ensures Valid() && activeMint == Some(name)
      ensures walletConnected == old(walletConnected) && ownedDomains == old(ownedDomains) && showProfile == old(showProfile)
      ensures liveMints == old(liveMints) && storage == old(storage)
    {
      activeMint := Some(name);
    }

    /** The wizard's Cancel closes it without minting. */
    method CloseMint()
      requires Valid()
      modifies this
      ensures Valid() && activeMint == None
      ensures walletConnected == old(walletConnected) && ownedDomains == old(ownedDomains) && showProfile == old(showProfile)
      ensures liveMints == old(liveMints) && storage == old(storage)
    {
      activeMint := None;
    }

    /** The "trader dashboard" button, and "back" on the dashboard. */
    method SetShowProfile(show: bool)
      requires Valid()
      modifies this
      ensures Valid() && showProfile == show
      ensures walletConnected == old(walletConnected) && ownedDomains == old(ownedDomains) && activeMint == old(activeMint)
      ensures liveMints == old(liveMints) && storage == old(storage)
    {
      showProfile := show;
    }

    /**
     * The wizard's completion: append the minted entry, write the same list
     * to storage, close the wizard and show the dashboard.
     */
    method CompleteMint(name: string, years: int, at: Timestamp)
      requires Valid()
      modifies this
      ensures Valid()
      ensures ownedDomains == AppendMinted(old(ownedDomains), name, years, at)
      ensures storage == Saved(ownedDomains)
      ensures activeMint == None && showProfile
      ensures walletConnected == old(walletConnected) && liveMints == old(liveMints)
    {
      var updated := AppendMinted(ownedDomains, name, years, at);
      ownedDomains := updated;
      storage := Saved(updated);
      activeMint := None;
      showProfile := true;
    }

    /**
     * The open wizard's "view profile" on its minted screen, wired to the
     * completion above: the wizard's name and duration are what gets minted.
     */
    method FinishWizard(wizard: MintFlow.MintWizard, at: Timestamp)
      requires Valid() && wizard.Valid() && wizard.step == 3
      requires activeMint == Some(wizard.domain)
      modifies this
      ensures Valid()
      ensures ownedDomains == AppendMinted(old(ownedDomains), wizard.domain, wizard.years, at)
      ensures ownedDomains[|ownedDomains| - 1].expiryYears >= 1
      ensures storage == Saved(ownedDomains) && activeMint == None && showProfile
      ensures walletConnected == old(walletConnected) && liveMints == old(liveMints)
    {
      var name, years := wizard.Completion();
      CompleteMint(name, years, at);
    }

    /** "Set as primary ID": rewrite every entry's flag and write the same list to storage. */
    method SetPrimary(name: string)
      requires Valid()
      modifies this
      ensures Valid()
      ensures ownedDomains == MarkPrimary(old(ownedDomains), name)
      ensures storage == Saved(ownedDomains)
      ensures walletConnected == old(walletConnected) && activeMint == old(activeMint)
      ensures showProfile == old(showProfile) && liveMints == old(liveMints)
    {
      var updated := MarkPrimary(ownedDomains, name);
      ownedDomains := updated;
      storage := Saved(updated);
    }

    /**
     * One firing of the feed interval, with the random choices given:
     * `prefixIndex` picks the prefix and `num` (below 999) the number.
     */
    method FeedTick(prefixIndex: nat, num: nat)
      requires Valid()
      requires prefixIndex < |FeedPrefixes| && num < 999
      modifies this
      ensures Valid()
      ensures liveMints == PushFeed(old(liveMints), FeedName(prefixIndex, num))
      ensures walletConnected == old(walletConnected) && ownedDomains == old(ownedDomains)
      ensures activeMint == old(activeMint) && showProfile == old(showProfile) && storage == old(storage)
    {
      liveMints := PushFeed(liveMints, FeedName(prefixIndex, num));
    }
  }
}
