/** components/burn/NftSelection.tsx: the grid of burn NFTs the wallet owns, from which
    the user picks the five to burn. The selection itself is the home page's state; this
    component computes the new selections it hands back. */
module NftSelection {
  import opened Optional
  import opened Strings
  import opened NftTypes
  import opened Language
  import opened Metadata

  /** The most NFTs a selection may hold. */
  const MaxSelected: nat := 5

  predicate NoDuplicates(s: seq<nat>) {
    forall i, j :: 0 <= i < j < |s| ==> s[i] != s[j]
  }

  /** What toggling maintains: at most five ids, none twice. */
  predicate ValidSelection(s: seq<nat>) {
    |s| <= MaxSelected && NoDuplicates(s)
  }

  /** `filter(id => id !== x)`: every other id keeps its count, `x` is gone. */
  function Without(s: seq<nat>, x: nat): (r: seq<nat>)
    ensures x !in r
    ensures forall y :: y != x ==> multiset(r)[y] == multiset(s)[y]
    ensures |r| == |s| - multiset(s)[x]
    ensures x !in s ==> r == s
    decreases |s|
  {
    if s == [] then []
    else
      assert s == [s[0]] + s[1..];
      if s[0] == x then Without(s[1..], x)
      else [s[0]] + Without(s[1..], x)
  }

  /** Filtering distributes over concatenation, so the ids kept stay in their order. */
  lemma {:induction false} WithoutAppend(a: seq<nat>, b: seq<nat>, x: nat)
    ensures Without(a + b, x) == Without(a, x) + Without(b, x)
    decreases |a|
  {
    if a == [] {
      assert a + b == b;
      assert Without(a, x) + Without(b, x) == Without(b, x);
    } else {
      assert (a + b)[0] == a[0];
      assert (a + b)[1..] == a[1..] + b;
      WithoutAppend(a[1..], b, x);
      if a[0] != x {
        calc {
          Without(a + b, x);
          [a[0]] + Without(a[1..] + b, x);
          [a[0]] + (Without(a[1..], x) + Without(b, x));
          ([a[0]] + Without(a[1..], x)) + Without(b, x);
          Without(a, x) + Without(b, x);
        }
      } else {
        calc {
          Without(a + b, x);
          Without(a[1..] + b, x);
          Without(a[1..], x) + Without(b, x);
          Without(a, x) + Without(b, x);
        }
      }
    }
  }

  /** Every element of the result is an element of the input. */
  lemma {:induction false} WithoutSubset(s: seq<nat>, x: nat)
    ensures forall y :: y in Without(s, x) ==> y in s
  {
    forall y | y in Without(s, x)
      ensures y in s
    {
      assert multiset(Without(s, x))[y] > 0;
    }
  }

  /** Removing an id from a duplicate-free selection keeps it duplicate-free. */
  lemma {:induction false} WithoutNoDuplicates(s: seq<nat>, x: nat)
    requires NoDuplicates(s)
    ensures NoDuplicates(Without(s, x))
    decreases |s|
  {
    if s != [] {
      WithoutNoDuplicates(s[1..], x);
      if s[0] != x {
        WithoutSubset(s[1..], x);
        assert s[0] !in s[1..] by {
          forall j | 0 <= j < |s[1..]| ensures s[1..][j] != s[0] {
            assert s[1..][j] == s[j + 1];
          }
        }
      }
    }
  }

  /** `toggleNFT`: nothing while disabled; a selected id is removed; an unselected id
      is appended only while fewer than five are selected. */
  function Toggle(selection: seq<nat>, tokenId: nat, disabled: bool): (r: seq<nat>)
    ensures disabled ==> r == selection
    ensures !disabled && tokenId in selection ==> tokenId !in r && |r| < |selection|
    ensures !disabled && tokenId in selection ==> r == Without(selection, tokenId)
    ensures !disabled && tokenId !in selection && |selection| < MaxSelected ==> r == selection + [tokenId]
    ensures !disabled && tokenId !in selection && |selection| >= MaxSelected ==> r == selection
  {
    if disabled then selection
    else if tokenId in selection then
      assert multiset(Without(selection, tokenId))[tokenId] < multiset(selection)[tokenId];
      Without(selection, tokenId)
    else if |selection| < MaxSelected then selection + [tokenId]
    else selection
  }

  /** A selection built by toggles stays valid: at most five, no duplicates. */
  lemma ToggleKeepsValid(selection: seq<nat>, tokenId: nat, disabled: bool)
    requires ValidSelection(selection)
    ensures ValidSelection(Toggle(selection, tokenId, disabled))
  {
    if !disabled && tokenId in selection {
      WithoutNoDuplicates(selection, tokenId);
    }
  }

  /** The selection after any sequence of clicks. */
  function ToggleAll(selection: seq<nat>, clicks: seq<nat>, disabled: bool): seq<nat>
    decreases |clicks|
  {
    if clicks == [] then selection
    else ToggleAll(Toggle(selection, clicks[0], disabled), clicks[1..], disabled)
  }

  lemma {:induction false} ToggleAllKeepsValid(selection: seq<nat>, clicks: seq<nat>, disabled: bool)
    requires ValidSelection(selection)
    ensures ValidSelection(ToggleAll(selection, clicks, disabled))
    decreases |clicks|
  {
    if clicks != [] {
      ToggleKeepsValid(selection, clicks[0], disabled);
      ToggleAllKeepsValid(Toggle(selection, clicks[0], disabled), clicks[1..], disabled);
    }
  }

  /** Some fetched NFT has this token id. */
  predicate Owned(nfts: seq<Nft>, tokenId: nat) {
    exists i :: 0 <= i < |nfts| && nfts[i].tokenId == tokenId
  }

  /** The selected ids that appear among the fetched NFTs, in selection order. */
  function KeepOwned(selection: seq<nat>, nfts: seq<Nft>): (r: seq<nat>)
    ensures forall y :: multiset(r)[y] == if Owned(nfts, y) then multiset(selection)[y] else 0
    ensures |r| <= |selection|
    ensures |r| == |selection| ==> r == selection
    decreases |selection|
  {
    if selection == [] then []
    else
      assert selection == [selection[0]] + selection[1..];
      var rest := KeepOwned(selection[1..], nfts);
      if Owned(nfts, selection[0]) then [selection[0]] + rest else rest
  }

  /** The owned filter distributes over concatenation, so the kept ids stay in
      selection order. */
  lemma {:induction false} KeepOwnedAppend(a: seq<nat>, b: seq<nat>, nfts: seq<Nft>)
    ensures KeepOwned(a + b, nfts) == KeepOwned(a, nfts) + KeepOwned(b, nfts)
    decreases |a|
  {
    if a == [] {
      assert a + b == b;
      assert KeepOwned(a, nfts) + KeepOwned(b, nfts) == KeepOwned(b, nfts);
    } else {
      assert (a + b)[0] == a[0];
      assert (a + b)[1..] == a[1..] + b;
      KeepOwnedAppend(a[1..], b, nfts);
      if Owned(nfts, a[0]) {
        calc {
          KeepOwned(a + b, nfts);
          [a[0]] + KeepOwned(a[1..] + b, nfts);
          [a[0]] + (KeepOwned(a[1..], nfts) + KeepOwned(b, nfts));
          ([a[0]] + KeepOwned(a[1..], nfts)) + KeepOwned(b, nfts);
          KeepOwned(a, nfts) + KeepOwned(b, nfts);
        }
      } else {
        calc {
          KeepOwned(a + b, nfts);
          KeepOwned(a[1..] + b, nfts);
          KeepOwned(a[1..], nfts) + KeepOwned(b, nfts);
          KeepOwned(a, nfts) + KeepOwned(b, nfts);
        }
      }
    }
  }

  /** The pruning effect: the ids still owned, written back only when some were
      dropped (`None` means no write). */
  function Prune(selection: seq<nat>, nfts: seq<Nft>): (r: Option<seq<nat>>)
    ensures r.Some? <==> exists y :: y in selection && !Owned(nfts, y)
    ensures r.Some? ==> r.value == KeepOwned(selection, nfts) && |r.value| < |selection|
    ensures r.None? ==> KeepOwned(selection, nfts) == selection
  {
    var valid := KeepOwned(selection, nfts);
    if |valid| != |selection| then
      assert exists y :: y in selection && !Owned(nfts, y) by {
        PruneDropsUnowned(selection, nfts);
      }
      Some(valid)
    else
      assert forall y :: y in selection ==> Owned(nfts, y) by {
        forall y | y in selection ensures Owned(nfts, y) {
          assert multiset(valid)[y] == multiset(selection)[y];
        }
      }
      None
  }

  /** A shorter result means some selected id is not owned. */
  lemma PruneDropsUnowned(selection: seq<nat>, nfts: seq<Nft>)
    requires |KeepOwned(selection, nfts)| != |selection|
    ensures exists y :: y in selection && !Owned(nfts, y)
  {
    var valid := KeepOwned(selection, nfts);
    if forall y :: y in selection ==> Owned(nfts, y) {
      assert false;
    }
  }

  /** Pruning is idempotent: once pruned, a selection is left alone. */
  lemma PruneIdempotent(selection: seq<nat>, nfts: seq<Nft>)
    ensures Prune(KeepOwned(selection, nfts), nfts).None?
  {
    var valid := KeepOwned(selection, nfts);
    forall y | y in valid ensures Owned(nfts, y) {
      assert multiset(valid)[y] > 0;
    }
  }

  /** The record shown for an owned burn token. */
  function BurnNft(lang: Lang, tokenId: nat): Nft {
    Nft(tokenId, None, NftName(lang, Burn, tokenId), NftImageUrl(lang, Burn, tokenId), Burn, None)
  }

  /** The list built from the ids `tokensOwnedBy` returns, one record per id, in order. */
  function BurnNfts(lang: Lang, ids: seq<nat>): (r: seq<Nft>)
    ensures |r| == |ids|
    ensures forall i :: 0 <= i < |ids| ==> r[i].tokenId == ids[i] && r[i].kind == Burn
    ensures forall i :: 0 <= i < |ids| ==> r[i].name == NftName(lang, Burn, ids[i])
  {
    seq(|ids|, i requires 0 <= i < |ids| => BurnNft(lang, ids[i]))
  }

  /** After a successful fetch exactly the returned ids are owned, so pruning keeps
      the selected ids the wallet still holds. */
  lemma OwnedAfterFetch(lang: Lang, ids: seq<nat>, tokenId: nat)
    ensures Owned(BurnNfts(lang, ids), tokenId) <==> tokenId in ids
  {
    var nfts := BurnNfts(lang, ids);
    if tokenId in ids {
      var i :| 0 <= i < |ids| && ids[i] == tokenId;
      assert nfts[i].tokenId == tokenId;
    }
  }

  /** How `tokensOwnedBy` ends. */
  datatype FetchOutcome = OwnedIds(ids: seq<nat>) | FetchThrows

  /** The hint under the grid. */
  datatype Hint = NoHint | SelectFive(message: Message) | SelectedAll(message: Message)

  /** `ids.join(', #')`. */
  function JoinIds(ids: seq<nat>): string
    decreases |ids|
  {
    if ids == [] then ""
    else if |ids| == 1 then NatToString(ids[0])
    else NatToString(ids[0]) + ", #" + JoinIds(ids[1..])
  }

  /** The parts `JoinIds` separates by commas: the first id's digits, then " #" and
      the digits of each later id. */
  function IdParts(ids: seq<nat>): (r: seq<string>)
    requires ids != []
    ensures |r| == |ids| && r[0] == NatToString(ids[0])
    ensures forall k :: 1 <= k < |ids| ==> r[k] == " #" + NatToString(ids[k])
  {
    [NatToString(ids[0])] + seq(|ids| - 1, k requires 0 <= k < |ids| - 1 => " #" + NatToString(ids[k + 1]))
  }

  /** Splitting the joined ids on ',' gives back each id's decimal rendering in order,
      each after the first behind " #"; no ids join to the empty string. */
  lemma {:induction false} JoinIdsSplit(ids: seq<nat>)
    ensures ids == [] ==> JoinIds(ids) == ""
    ensures ids != [] ==> Split(JoinIds(ids), ',') == IdParts(ids)
    decreases |ids|
  {
    if ids != [] {
      var a := NatToString(ids[0]);
      assert ',' !in a by {
        forall i | 0 <= i < |a| ensures a[i] != ',' { assert IsDigit(a[i]); }
      }
      if |ids| == 1 {
        SplitFree(a, ',');
      } else {
        JoinIdsSplit(ids[1..]);
        CommaSplit(a, JoinIds(ids[1..]));
        IdPartsCons(ids);
      }
    }
  }

  /** One ", #" separator after a comma-free head. */
  lemma CommaSplit(a: string, rest: string)
    requires ',' !in a
    ensures Split(a + ", #" + rest, ',') ==
      [a, " #" + Split(rest, ',')[0]] + Split(rest, ',')[1..]
  {
    var tail := Split(rest, ',');
    var x := " #" + rest;
    SplitPrefix(" #", rest, ',');
    var u := Split(x, ',');
    assert u == [" #" + tail[0]] + tail[1..];
    assert ([','] + x)[1..] == x;
    assert Split([','] + x, ',') == [""] + u;
    SplitPrefix(a, [','] + x, ',');
    assert a + ", #" + rest == a + ([','] + x);
    assert a + "" == a;
    assert [a] + u == [a] + [" #" + tail[0]] + tail[1..];
    assert [a] + [" #" + tail[0]] == [a, " #" + tail[0]];
  }

  /** `IdParts` of a longer list: the head's part, then the tail's parts with the
      first one behind " #". */
  lemma IdPartsCons(ids: seq<nat>)
    requires |ids| >= 2
    ensures IdParts(ids) ==
      [NatToString(ids[0]), " #" + IdParts(ids[1..])[0]] + IdParts(ids[1..])[1..]
  {
  }

  /** "Select five" shows while some but fewer than five are selected; the summary
      shows at exactly five. */
  function HintFor(selection: seq<nat>): (h: Hint)
    ensures h.SelectFive? <==> 0 < |selection| < 5
    ensures h.SelectedAll? <==> |selection| == 5
    ensures h.SelectFive? ==> h.message == Formatted("nftSelection.selectFive", [("selected", NatToString(|selection|))])
    ensures h.SelectedAll? ==> h.message == Formatted("nftSelection.selectedNfts", [("ids", JoinIds(selection))])
  {
    if 0 < |selection| < 5 then
      SelectFive(Formatted("nftSelection.selectFive", [("selected", NatToString(|selection|))]))
    else if |selection| == 5 then SelectedAll(Formatted("nftSelection.selectedNfts", [("ids", JoinIds(selection))]))
    else NoHint
  }

  /** The component's own state. */
  class SelectionGrid {
    var nfts: seq<Nft>
    var isLoading: bool
    var refreshCounter: nat
    var loadError: Option<Message>

    constructor()
      ensures nfts == [] && isLoading && refreshCounter == 0 && loadError == None
    {
      nfts := [];
      isLoading := true;
      refreshCounter := 0;
      loadError := None;
    }

    /** The burn-hash effect: a truthy hash reloads the list and asks the page to clear
        the selection (the returned flag). */
    method OnBurnTxHash(burnTxHash: Option<string>) returns (clearSelection: bool)
      modifies this
      ensures clearSelection <==> burnTxHash.Some? && burnTxHash.value != ""
      ensures refreshCounter == if clearSelection then old(refreshCounter) + 1 else old(refreshCounter)
      ensures nfts == old(nfts) && isLoading == old(isLoading) && loadError == old(loadError)
    {
      clearSelection := burnTxHash.Some? && burnTxHash.value != "";
      if clearSelection {
        refreshCounter := refreshCounter + 1;
      }
    }

    /** `handleRefresh`. */
    method HandleRefresh()
      modifies this
      ensures refreshCounter == old(refreshCounter) + 1
      ensures nfts == old(nfts) && isLoading == old(isLoading) && loadError == old(loadError)
    {
      refreshCounter := refreshCounter + 1;
    }

    /** `fetchUserNFTs`: skipped without a connected wallet, an address or a signer, or
        while disabled; otherwise the owned ids become burn records, and a failure
        empties the list and shows the generic error. */
    method FetchUserNfts(isConnected: bool, address: Option<string>, hasSigner: bool, disabled: bool,
                         lang: Lang, outcome: FetchOutcome)
      modifies this
      ensures !isLoading && refreshCounter == old(refreshCounter)
      ensures !isConnected || address.None? || address == Some("") || !hasSigner || disabled ==>
        nfts == old(nfts) && loadError == old(loadError)
      ensures isConnected && address.Some? && address.value != "" && hasSigner && !disabled ==>
        match outcome
        case OwnedIds(ids) => nfts == BurnNfts(lang, ids) && loadError == None
        case FetchThrows => nfts == [] && loadError == Some(Key("errors.transaction.generic"))
    {
      if !isConnected || address.None? || address.value == "" || !hasSigner || disabled {
        isLoading := false;
        return;
      }
      isLoading := true;
      loadError := None;
      match outcome {
        case OwnedIds(ids) =>
          nfts := BurnNfts(lang, ids);
        case FetchThrows =>
          loadError := Some(Key("errors.transaction.generic"));
          nfts := [];
      }
      isLoading := false;
    }
  }
}
