/**
 * The artist dashboard's revenue-split editor: a list of contributors
 * (address and split percentage) built from two input fields, with removal
 * by position, and the projection into the two parallel arrays
 * `handleUpload` builds (and logs).
 */
module ArtistDashboard {
  import opened Wrappers
  import opened Ledger

  datatype Contributor = Contributor(address: Address, split: int)

  /** `updated.splice(index, 1)` on a copy of `cs`: removes the entry at
      `index`, or nothing when `index` is at or past the end. */
  function SpliceOne(cs: seq<Contributor>, index: nat): (r: seq<Contributor>)
    ensures index < |cs| ==> |r| == |cs| - 1
    ensures index >= |cs| ==> r == cs
    ensures forall k :: 0 <= k < index && k < |r| ==> r[k] == cs[k]
    ensures forall k :: index <= k < |r| ==> r[k] == cs[k + 1]
  {
    if index < |cs| then cs[..index] + cs[index + 1..] else cs
  }

  /** Putting the removed entry back at its position restores the list, and
      removal takes exactly that one entry out of the multiset. */
  lemma SpliceOneReversible(cs: seq<Contributor>, index: nat)
    requires index < |cs|
    ensures SpliceOne(cs, index)[..index] + [cs[index]] + SpliceOne(cs, index)[index..] == cs
    ensures multiset(SpliceOne(cs, index)) + multiset{cs[index]} == multiset(cs)
  {
  }

  /** `contributors.map(c => c.address)`. */
  function Addresses(cs: seq<Contributor>): (r: seq<Address>)
    ensures |r| == |cs|
    ensures forall k :: 0 <= k < |cs| ==> r[k] == cs[k].address
  {
    seq(|cs|, k requires 0 <= k < |cs| => cs[k].address)
  }

  /** `contributors.map(c => c.split)`. */
  function Splits(cs: seq<Contributor>): (r: seq<int>)
    ensures |r| == |cs|
    ensures forall k :: 0 <= k < |cs| ==> r[k] == cs[k].split
  {
    seq(|cs|, k requires 0 <= k < |cs| => cs[k].split)
  }

  /** Pairs the two parallel arrays `handleUpload` builds (and logs) element by element. */
  function Zip(addresses: seq<Address>, splits: seq<int>): seq<Contributor>
    requires |addresses| == |splits|
    decreases |addresses|
  {
    if |addresses| == 0 then []
    else [Contributor(addresses[0], splits[0])] + Zip(addresses[1..], splits[1..])
  }

  /** The two upload arrays together carry the whole list, in order. */
  lemma {:induction false} ProjectionZipsBack(cs: seq<Contributor>)
    ensures Zip(Addresses(cs), Splits(cs)) == cs
    decreases |cs|
  {
    if |cs| > 0 {
      assert Addresses(cs)[1..] == Addresses(cs[1..]);
      assert Splits(cs)[1..] == Splits(cs[1..]);
      ProjectionZipsBack(cs[1..]);
    }
  }

  class ArtistDashboardPage {
    var title: string
    var price: string
    var contributor: Address
    /** The split input; None is the empty field. */
    var split: Option<int>
    var contributors: seq<Contributor>

    /** Every listed contributor has an address: `handleAddContributor`
        refuses an empty one. */
    ghost predicate Valid()
      reads this
    {
      forall k :: 0 <= k < |contributors| ==> contributors[k].address != ""
    }

    constructor ()
      ensures Valid()
      ensures title == "" && price == "" && contributor == "" && split == None && contributors == []
    {
      title, price, contributor, split, contributors := "", "", "", None, [];
    }

    method SetContributor(value: Address)
      requires Valid()
      modifies this`contributor
      ensures Valid()
      ensures contributor == value
    {
      contributor := value;
    }

    method SetSplit(value: Option<int>)
      requires Valid()
      modifies this`split
      ensures Valid()
      ensures split == value
    {
      split := value;
    }

    /**
     * `handleAddContributor`: with both fields filled, appends one entry at
     * the end and clears both fields; otherwise changes nothing.
     */
    method AddContributor()
      requires Valid()
      modifies this`contributors, this`contributor, this`split
      ensures Valid()
      ensures old(contributor) == "" || old(split).None? ==>
        contributors == old(contributors) && contributor == old(contributor) && split == old(split)
      ensures old(contributor) != "" && old(split).Some? ==>
        && contributors == old(contributors) + [Contributor(old(contributor), old(split).value)]
        && contributor == "" && split == None
    {
      if contributor == "" || split.None? {
        return;
      }
      contributors := contributors + [Contributor(contributor, split.value)];
      contributor := "";
      split := None;
    }

    /** `handleRemoveContributor(index)`: removes the entry at `index`, if any. */
    method RemoveContributor(index: nat)
      requires Valid()
      modifies this`contributors
      ensures Valid()
      ensures contributors == SpliceOne(old(contributors), index)
    {
      contributors := SpliceOne(contributors, index);
    }

    /** `handleUpload`: the two parallel arrays it builds (and logs), entry k of
        each taken from contributor k. */
    method HandleUpload() returns (contributorAddresses: seq<Address>, contributorSplits: seq<int>)
      ensures |contributorAddresses| == |contributors| && |contributorSplits| == |contributors|
      ensures forall k :: 0 <= k < |contributors| ==>
        Contributor(contributorAddresses[k], contributorSplits[k]) == contributors[k]
    {
      contributorAddresses := Addresses(contributors);
      contributorSplits := Splits(contributors);
    }
  }
}
