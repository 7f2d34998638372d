/** The emoji picture of a listing, chosen from its name. */
module ProductImages {
  import opened Text

  /** Keyword and picture, in the order the table lists them (the order the lookup tries them). */
  const Table: seq<(string, string)> := [
    ("rice", "\U{1F33E}"), ("wheat", "\U{1F33E}"), ("corn", "\U{1F33D}"), ("barley", "\U{1F33E}"),
    ("oats", "\U{1F33E}"), ("tomato", "\U{1F345}"), ("potato", "\U{1F954}"), ("onion", "\U{1F9C5}"),
    ("carrot", "\U{1F955}"), ("cabbage", "\U{1F96C}"), ("spinach", "\U{1F96C}"), ("cauliflower", "\U{1F966}"),
    ("broccoli", "\U{1F966}"), ("lettuce", "\U{1F96C}"), ("apple", "\U{1F34E}"), ("banana", "\U{1F34C}"),
    ("orange", "\U{1F34A}"), ("mango", "\U{1F96D}"), ("grapes", "\U{1F347}"), ("watermelon", "\U{1F349}"),
    ("strawberry", "\U{1F353}"), ("pineapple", "\U{1F34D}"), ("coconut", "\U{1F965}"), ("lentil", "\U{1FAD8}"),
    ("chickpea", "\U{1FAD8}"), ("bean", "\U{1FAD8}"), ("pea", "\U{1FADB}"), ("milk", "\U{1F95B}"),
    ("cheese", "\U{1F9C0}"), ("butter", "\U{1F9C8}"), ("yogurt", "\U{1F95B}"), ("turmeric", "\U{1F33F}"),
    ("chili", "\U{1F336}\U{FE0F}"), ("pepper", "\U{1F336}\U{FE0F}"), ("cumin", "\U{1F33F}"), ("coriander", "\U{1F33F}"),
    ("organic", "\U{1F331}"), ("seed", "\U{1F331}"), ("sapling", "\U{1F331}")
  ]

  /** The picture for a name that contains no keyword (the sheaf of rice). */
  const Default: string := "\U{1F33E}"

  /** The picture of the first entry of table whose keyword occurs in name, or Default. */
  function ImageIn(table: seq<(string, string)>, name: string): (image: string)
    ensures image == Default || exists k :: 0 <= k < |table| && table[k].1 == image
  {
    if table == [] then Default
    else if Includes(name, table[0].0) then table[0].1
    else
      var image := ImageIn(table[1..], name);
      assert forall k :: 0 <= k < |table[1..]| ==> table[1..][k] == table[k + 1];
      image
  }

  /** The picture getProductImage picks for a product name. */
  function ImageFor(productName: string): (image: string)
    ensures image == Default || exists k :: 0 <= k < |Table| && Table[k].1 == image
  {
    ImageIn(Table, Lower(productName))
  }

  /** Lower-casing the name first changes nothing: the lookup already ignores case. */
  lemma ImageForIgnoresCase(productName: string)
    ensures ImageFor(Lower(productName)) == ImageFor(productName)
  {
    LowerIdempotent(productName);
  }

  /** No keyword of table occurs in name. */
  predicate NoKeywordIn(table: seq<(string, string)>, name: string)
  {
    forall k :: 0 <= k < |table| ==> !Includes(name, table[k].0)
  }

  /** Entry j is the first entry of table whose keyword occurs in name. */
  predicate FirstKeywordAt(table: seq<(string, string)>, name: string, j: int)
  {
    0 <= j < |table| && Includes(name, table[j].0) && NoKeywordIn(table[..j], name)
  }

  /** The first keyword of the table that occurs in the name decides the picture;
      when no keyword occurs, the picture is the default. */
  lemma {:induction false} ImageInFirstMatch(table: seq<(string, string)>, name: string)
    ensures NoKeywordIn(table, name) ==> ImageIn(table, name) == Default
    ensures forall j :: FirstKeywordAt(table, name, j) ==> ImageIn(table, name) == table[j].1
  {
    if table != [] {
      ImageInFirstMatch(table[1..], name);
      if NoKeywordIn(table, name) {
        assert !Includes(name, table[0].0);
        assert NoKeywordIn(table[1..], name);
      }
      forall j | FirstKeywordAt(table, name, j)
        ensures ImageIn(table, name) == table[j].1
      {
        if j > 0 {
          assert table[..j][0] == table[0];
          assert !Includes(name, table[0].0);
          assert table[1..][..j - 1] == table[..j][1..];
          assert FirstKeywordAt(table[1..], name, j - 1);
        }
      }
    }
  }

  /** The lookup loop of getProductImage over a keyword table: try the keywords in order
      and stop at the first one the name contains. */
  method PickImage(table: seq<(string, string)>, name: string) returns (image: string)
    ensures image == ImageIn(table, name)
    ensures (exists j :: FirstKeywordAt(table, name, j) && image == table[j].1) ||
            (NoKeywordIn(table, name) && image == Default)
  {
    ImageInFirstMatch(table, name);
    var i := 0;
    while i < |table|
      invariant 0 <= i <= |table|
      invariant NoKeywordIn(table[..i], name)
    {
      if Includes(name, table[i].0) {
        assert FirstKeywordAt(table, name, i);
        return table[i].1;
      }
      assert table[..i + 1] == table[..i] + [table[i]];
      i := i + 1;
    }
    assert table[..i] == table;
    return Default;
  }

  /** getProductImage: the picture of the first keyword in Table that the lower-cased
      product name contains, or the default picture. */
  method GetProductImage(productName: string) returns (image: string)
    ensures image == ImageFor(productName)
    ensures (exists j :: FirstKeywordAt(Table, Lower(productName), j) && image == Table[j].1) ||
            (NoKeywordIn(Table, Lower(productName)) && image == Default)
  {
    image := PickImage(Table, Lower(productName));
  }
}
