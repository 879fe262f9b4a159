/** What the generation modules exchange with the Replicate client: the input
    dictionary, the shapes `replicate.run` may return, and how those shapes are
    turned into a list of URLs. The call itself is a parameter (`Runner`). */
module Provider {
  import opened Common

  /** A value in the input dictionary sent to a provider. */
  datatype Value = Str(s: string) | Flag(b: bool) | Num(n: int)

  type Input = map<string, Value>

  /** One thing `replicate.run` may hand back: a plain string, a file object
      whose `url` is a method, one whose `url` is an attribute, or any other
      object, which is rendered with `str()`. */
  datatype Item = Text(s: string) | UrlMethod(url: string) | UrlAttr(url: string) | Other(repr: string)

  /** The whole return value: a single item, or a list of items together with
      what `str()` of the list renders. */
  datatype Output = One(item: Item) | List(items: seq<Item>, repr: string)

  /** `replicate.run` either returns or raises (with the exception's message). */
  datatype Call = Returned(output: Output) | Raised(message: string)

  /** The provider, as a function of the model reference and the input. */
  type Runner = (Option<string>, Input) -> Call

  datatype Status = Success | Error

  /** The message of the `TypeError` raised when an output that is not a list
      or string is iterated. */
  const NotIterable: string := "object is not iterable"

  /** The URL of one item: the string itself, the file object's `url`, or its `str()`. */
  function ItemUrl(it: Item): string
  {
    match it
    case Text(s) => s
    case UrlMethod(u) => u
    case UrlAttr(u) => u
    case Other(r) => r
  }

  /** The single-output branch: exactly one URL, whatever came back. */
  function SingleUrls(o: Output): (urls: seq<string>)
    ensures |urls| == 1
    ensures o.One? ==> urls[0] == ItemUrl(o.item)
    ensures o.List? ==> urls[0] == o.repr
  {
    match o
    case One(it) => [ItemUrl(it)]
    case List(_, r) => [r]
  }

  /** What `for item in output` visits: the list's items, the characters of a
      string, or nothing at all for an object that cannot be iterated. */
  function Iterate(o: Output): (r: Option<seq<Item>>)
    ensures o.List? ==> r == Some(o.items)
    ensures o.One? && o.item.Text? ==> r.Some? && |r.value| == |o.item.s|
    ensures o.One? && o.item.Text? ==> forall i :: 0 <= i < |o.item.s| ==> r.value[i] == Text([o.item.s[i]])
    ensures o.One? && !o.item.Text? ==> r.None?
  {
    match o
    case List(items, _) => Some(items)
    case One(Text(s)) => Some(seq(|s|, i requires 0 <= i < |s| => Text([s[i]])))
    case One(_) => None
  }

  /** The array-output branch: one URL per item, in order. */
  method CollectUrls(items: seq<Item>) returns (urls: seq<string>)
    ensures |urls| == |items|
    ensures forall i :: 0 <= i < |items| ==> urls[i] == ItemUrl(items[i])
  {
    urls := [];
    var k := 0;
    while k < |items|
      invariant 0 <= k <= |items|
      invariant |urls| == k
      invariant forall i :: 0 <= i < k ==> urls[i] == ItemUrl(items[i])
    {
      var item := items[k];
      if item.Text? {
        urls := urls + [item.s];
      } else if item.UrlMethod? {
        urls := urls + [item.url];
      } else if item.UrlAttr? {
        urls := urls + [item.url];
      } else {
        urls := urls + [item.repr];
      }
      k := k + 1;
    }
  }

  /** `config.get("version") or config.get("identifier")`: a non-empty version
      wins, otherwise the identifier is used, whatever it is. */
  function ModelRef(version: Option<string>, identifier: Option<string>): (r: Option<string>)
    ensures Truthy(version) ==> r == version
    ensures !Truthy(version) ==> r == identifier
  {
    if Truthy(version) then version else identifier
  }

  /** How many results have the given status. */
  function Count(ss: seq<Status>, s: Status): (n: nat)
    ensures n <= |ss|
  {
    if ss == [] then 0 else Count(ss[..|ss| - 1], s) + (if ss[|ss| - 1] == s then 1 else 0)
  }

  /** Every result is either a success or an error, so the two counts add up
      to the number of results. */
  lemma {:induction false} CountsPartition(ss: seq<Status>)
    ensures Count(ss, Success) + Count(ss, Error) == |ss|
  {
    if ss != [] {
      CountsPartition(ss[..|ss| - 1]);
    }
  }
}
