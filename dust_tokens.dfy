/**
 * The dust list component: the set of selected token addresses with its
 * three user actions, and what is derived from it and the hook's list — the
 * ordered selected list handed to the transaction card, the `needsApproval`
 * flag, the displayed records and each record's approve button.
 */
module DustTokens {
  import opened Wrappers
  import opened Types
  import BigIntText
  import Seqs
  import DustData

  /** The selection after toggling `a`: removed if present, added if absent. */
  function Toggled(selected: set<string>, a: string): (r: set<string>)
    ensures a in r <==> a !in selected
    ensures forall b :: b != a ==> (b in r <==> b in selected)
  {
    if a in selected then selected - {a} else selected + {a}
  }

  /** Toggling the same address twice restores the selection. */
  lemma ToggleTwiceRestores(selected: set<string>, a: string)
    ensures Toggled(Toggled(selected, a), a) == selected
  {
  }

  /** The set of the addresses of the listed records. */
  function AddressesOf(tokenBalances: seq<TokenBalance>): (r: set<string>)
    ensures forall a :: a in r <==> exists i :: 0 <= i < |tokenBalances| && tokenBalances[i].address == a
  {
    set i | 0 <= i < |tokenBalances| :: tokenBalances[i].address
  }

  /** The `SelectedTokenInfo` the component builds from a record. */
  function Project(t: TokenBalance): SelectedTokenInfo
  {
    SelectedTokenInfo(t.address, t.symbol, t.decimals, t.balance, Some(t.coinGeckoId), t.allowance)
  }

  function Selector(selected: set<string>): TokenBalance -> Option<SelectedTokenInfo>
  {
    (t: TokenBalance) => if t.address in selected then Some(Project(t)) else None
  }

  /** The selected list: the listed records whose address is selected, in list order, projected to what the card needs. */
  function SelectedList(tokenBalances: seq<TokenBalance>, selected: set<string>): (r: seq<SelectedTokenInfo>)
    ensures |r| <= |tokenBalances|
  {
    Seqs.FilterMap(tokenBalances, Selector(selected))
  }

  /**
   * The selected list holds exactly the records whose address is selected,
   * in list order: `ix` gives each entry's position in `tokenBalances`.
   */
  lemma SelectedListInOrder(tokenBalances: seq<TokenBalance>, selected: set<string>) returns (ix: seq<nat>)
    ensures |ix| == |SelectedList(tokenBalances, selected)|
    ensures forall k :: 0 <= k < |ix| ==>
      && ix[k] < |tokenBalances|
      && tokenBalances[ix[k]].address in selected
      && SelectedList(tokenBalances, selected)[k] == Project(tokenBalances[ix[k]])
    ensures forall k, l :: 0 <= k < l < |ix| ==> ix[k] < ix[l]
    ensures forall i :: 0 <= i < |tokenBalances| && tokenBalances[i].address in selected ==> i in ix
  {
    var f := Selector(selected);
    ix := Seqs.KeptIndices(tokenBalances, f);
    Seqs.FilterMapIndices(tokenBalances, f);
    Seqs.KeptIndicesIncreasing(tokenBalances, f);
    forall i | 0 <= i < |tokenBalances| && tokenBalances[i].address in selected ensures i in ix {
      assert f(tokenBalances[i]).Some?;
      var k := Seqs.KeptIndicesComplete(tokenBalances, f, i);
    }
  }

  /** Selected addresses that no record carries have no effect on the selected list. */
  lemma StaleSelectionIgnored(tokenBalances: seq<TokenBalance>, selected: set<string>)
    ensures SelectedList(tokenBalances, selected) == SelectedList(tokenBalances, selected * AddressesOf(tokenBalances))
  {
    var live := selected * AddressesOf(tokenBalances);
    forall i | 0 <= i < |tokenBalances|
      ensures Selector(selected)(tokenBalances[i]) == Selector(live)(tokenBalances[i])
    {
      assert tokenBalances[i].address in AddressesOf(tokenBalances);
    }
    Seqs.FilterMapPointwise(tokenBalances, Selector(selected), Selector(live));
  }

  /** After select-all, every record of the list (displayed or not) is in the selected list, in order. */
  lemma SelectAllSelectsEveryRecord(tokenBalances: seq<TokenBalance>)
    ensures |SelectedList(tokenBalances, AddressesOf(tokenBalances))| == |tokenBalances|
    ensures forall k :: 0 <= k < |tokenBalances| ==>
      SelectedList(tokenBalances, AddressesOf(tokenBalances))[k] == Project(tokenBalances[k])
  {
    var all := AddressesOf(tokenBalances);
    forall i | 0 <= i < |tokenBalances| ensures Selector(all)(tokenBalances[i]).Some? {
      assert tokenBalances[i].address in all;
    }
    Seqs.FilterMapTotal(tokenBalances, Selector(all));
  }

  /** The allowance read as a bigint, an empty string counting as zero; `None` when `BigInt` throws. */
  function AllowanceValue(allowance: string): (r: Option<nat>)
    ensures allowance == "" ==> r == Some(0)
    ensures allowance != "" ==> r == BigIntText.ParseBigInt(allowance)
  {
    var text := if allowance == "" then "0" else allowance;
    assert BigIntText.DecimalValue("0") == 0 by {
      assert "0"[..0] == "";
    }
    BigIntText.ParseBigInt(text)
  }

  /**
   * The per-token approval test (the approve button, and one step of
   * `needsApproval`): allowance strictly below the balance in smallest units.
   */
  function ApprovalNeeded(t: SelectedTokenInfo): (r: Option<bool>)
    ensures r.Some? <==> AllowanceValue(t.allowance).Some?
    ensures r.Some? ==> (r.value <==> AllowanceValue(t.allowance).value < t.balance)
    ensures t.allowance == "" ==> r == Some(t.balance > 0)
  {
    match AllowanceValue(t.allowance)
    case None => None
    case Some(a) => Some(a < t.balance)
  }

  /** Whether some selected token needs approval, scanning in order; `None` when a `BigInt` conversion throws before a `true` is found. */
  function NeedsApproval(list: seq<SelectedTokenInfo>): (r: Option<bool>)
    ensures r == Some(true) ==> exists k :: 0 <= k < |list| && ApprovalNeeded(list[k]) == Some(true)
    ensures r == Some(false) <==> forall k :: 0 <= k < |list| ==> ApprovalNeeded(list[k]) == Some(false)
    ensures (forall k :: 0 <= k < |list| ==> ApprovalNeeded(list[k]).Some?) ==> r.Some?
    decreases |list|
  {
    if list == [] then Some(false)
    else
      var rest := NeedsApproval(list[1..]);
      assert forall k :: 1 <= k < |list| ==> list[k] == list[1..][k - 1];
      match ApprovalNeeded(list[0])
      case None => None
      case Some(b) => if b then Some(true) else rest
  }

  /** With readable allowances, `needsApproval` is exactly "some selected allowance is below its balance". */
  lemma NeedsApprovalExact(list: seq<SelectedTokenInfo>)
    requires forall k :: 0 <= k < |list| ==> AllowanceValue(list[k].allowance).Some?
    ensures NeedsApproval(list) ==
      Some(exists k :: 0 <= k < |list| && AllowanceValue(list[k].allowance).value < list[k].balance)
  {
    var r := NeedsApproval(list);
    assert forall k :: 0 <= k < |list| ==> ApprovalNeeded(list[k]).Some?;
    if r == Some(true) {
      var k :| 0 <= k < |list| && ApprovalNeeded(list[k]) == Some(true);
      assert AllowanceValue(list[k].allowance).value < list[k].balance;
    } else {
      assert r == Some(false);
      forall k | 0 <= k < |list| ensures !(AllowanceValue(list[k].allowance).value < list[k].balance) {
        assert ApprovalNeeded(list[k]) == Some(false);
      }
    }
  }

  /**
   * Over the records the dust-data endpoint returns, `needsApproval` never
   * throws: it is "some selected record's allowance is below its balance".
   */
  lemma NeedsApprovalOfEndpointRecords(tokens: seq<TokenInfo>, results: seq<DustData.CallResult>,
                                        prices: map<string, Option<real>>, selected: set<string>)
    requires |results| == 2 * |tokens|
    ensures var list := SelectedList(DustData.Classify(tokens, results, prices), selected);
      forall k :: 0 <= k < |list| ==> BigIntText.ParseBigInt(list[k].allowance).Some?
    ensures var list := SelectedList(DustData.Classify(tokens, results, prices), selected);
      NeedsApproval(list) ==
        Some(exists k :: 0 <= k < |list| && BigIntText.ParseBigInt(list[k].allowance).value < list[k].balance)
  {
    var data := DustData.Classify(tokens, results, prices);
    var list := SelectedList(data, selected);
    var ix := SelectedListInOrder(data, selected);
    forall k | 0 <= k < |list| ensures BigIntText.ParseBigInt(list[k].allowance).Some? && AllowanceValue(list[k].allowance).Some? {
      assert list[k] == Project(data[ix[k]]);
      DustData.ClassifiedRecordsAreDust(tokens, results, prices, data[ix[k]]);
    }
    NeedsApprovalExact(list);
  }

  /** A record is displayed when it carries no error and its balance is positive. */
  predicate Displayed(t: TokenBalance)
  {
    (t.error.None? || t.error.value == "") && t.balance > 0
  }

  function DisplayFilter(): TokenBalance -> Option<TokenBalance>
  {
    (t: TokenBalance) => if Displayed(t) then Some(t) else None
  }

  /** The records the list shows, in list order. */
  function DisplayedTokens(tokenBalances: seq<TokenBalance>): (r: seq<TokenBalance>)
    ensures |r| <= |tokenBalances|
  {
    Seqs.FilterMap(tokenBalances, DisplayFilter())
  }

  /** A record is shown iff it has no error and a positive balance. */
  lemma DisplayedExactly(tokenBalances: seq<TokenBalance>, t: TokenBalance)
    ensures t in DisplayedTokens(tokenBalances) <==> t in tokenBalances && Displayed(t)
  {
    Seqs.FilterMapMembership(tokenBalances, DisplayFilter(), t);
  }

  /** Every record the dust-data endpoint returns is shown. */
  lemma EndpointRecordsDisplayed(tokens: seq<TokenInfo>, results: seq<DustData.CallResult>,
                                 prices: map<string, Option<real>>)
    requires |results| == 2 * |tokens|
    ensures DisplayedTokens(DustData.Classify(tokens, results, prices)) == DustData.Classify(tokens, results, prices)
  {
    var data := DustData.Classify(tokens, results, prices);
    forall i | 0 <= i < |data| ensures DisplayFilter()(data[i]) == Some(data[i]) {
      assert data[i] in data;
      DustData.ClassifiedRecordsAreDust(tokens, results, prices, data[i]);
    }
    Seqs.FilterMapTotal(data, DisplayFilter());
  }

  /** The component's selection state and its three actions. */
  class DustSelection {
    var selectedTokens: set<string>

    constructor ()
      ensures selectedTokens == {}
    {
      selectedTokens := {};
    }

    /** `toggleTokenSelection`: copy the set, delete or add the address, store the copy. */
    method ToggleTokenSelection(tokenAddress: string)
      modifies this
      ensures selectedTokens == Toggled(old(selectedTokens), tokenAddress)
    {
      var newSelected := selectedTokens;
      if tokenAddress in newSelected {
        newSelected := newSelected - {tokenAddress};
      } else {
        newSelected := newSelected + {tokenAddress};
      }
      selectedTokens := newSelected;
    }

    /** `selectAllTokens`: every address of the hook's list, displayed or not. */
    method SelectAllTokens(tokenBalances: seq<TokenBalance>)
      modifies this
      ensures selectedTokens == AddressesOf(tokenBalances)
    {
      selectedTokens := set i | 0 <= i < |tokenBalances| :: tokenBalances[i].address;
    }

    /** Clearing the selection. */
    method DeselectAllTokens()
      modifies this
      ensures selectedTokens == {}
    {
      selectedTokens := {};
    }
  }
}
