/** The static table of digital products offered through the payment
    processor, and its lookup by identifier. Prices are in cents. */
module StripeProducts {
  import opened Common

  datatype Entry = Entry(id: string, name: string, description: string, price: nat, currency: string)

  const Table: seq<Entry> := [
    Entry("discord_account", "Discord Account 2015",
          "Premium Discord account from 2015 with verified email", 5999, "eur"),
    Entry("spotify_premium", "Spotify Premium 3 Months",
          "3 months of Spotify Premium subscription", 2999, "eur"),
    Entry("roblox_robux", "Roblox 10,000 Robux",
          "10,000 Robux for your Roblox account", 7999, "eur"),
    Entry("netflix_account", "Netflix Premium Account",
          "Netflix Premium account with 4K streaming", 4999, "eur")
  ]

  /** The first entry whose id is `id`, if any. */
  function GetProductById(id: string): (r: Option<Entry>)
    ensures r.Some? ==> r.value in Table && r.value.id == id
    ensures r.None? <==> forall e :: e in Table ==> e.id != id
  {
    Find(Table, (e: Entry) => e.id == id)
  }

  /** The whole table, in its declared order: four products with distinct
      ids. */
  function GetAllProducts(): (r: seq<Entry>)
    ensures |r| == 4
    ensures forall i, j :: 0 <= i < j < |r| ==> r[i].id != r[j].id
  {
    TableWellFormed();
    Table
  }

  /** The ids are pairwise distinct, every price is a positive number of
      cents and every currency is "eur". */
  lemma TableWellFormed()
    ensures forall i, j :: 0 <= i < j < |Table| ==> Table[i].id != Table[j].id
    ensures forall i :: 0 <= i < |Table| ==> Table[i].price > 0 && Table[i].currency == "eur"
  {
  }

  /** Because the ids are distinct, looking up an entry's own id finds that
      entry. */
  lemma LookupIsUnambiguous()
    ensures forall e :: e in GetAllProducts() ==> GetProductById(e.id) == Some(e)
  {
    TableWellFormed();
    forall k | 0 <= k < |Table| ensures GetProductById(Table[k].id) == Some(Table[k]) {
      FindUnique(Table, (e: Entry) => e.id == Table[k].id, k);
    }
  }
}
