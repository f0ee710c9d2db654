/** Header lookup of the request parser (`getHeaderValue`): an exact-key
    lookup with a case-insensitive fallback.

    Go ranges over a map in an unspecified order; that order is an input
    here, `order`, which must list exactly the keys of the header map. */
module Headers {
  import opened Results
  import opened Text

  /** `order` is one enumeration of the keys of `headers`. */
  ghost predicate Enumerates(order: seq<string>, headers: map<string, string>)
  {
    && (forall k :: k in headers ==> k in order)
    && (forall i :: 0 <= i < |order| ==> order[i] in headers)
  }

  /** Some key of `headers` equals `key` under case folding. */
  ghost predicate HasFoldMatch(fold: char -> char, headers: map<string, string>, key: string)
  {
    exists k :: k in headers && EqualFold(fold, k, key)
  }

  /** The value of the first key in `order` that equals `key` under case
      folding: the `range` loop with its early return. */
  function FirstFoldMatch(fold: char -> char, headers: map<string, string>, order: seq<string>, key: string)
    : (r: Option<string>)
    ensures r.Some? ==>
      exists i :: 0 <= i < |order| && order[i] in headers && EqualFold(fold, order[i], key)
                  && r.value == headers[order[i]]
    ensures r.None? ==>
      forall i :: 0 <= i < |order| && order[i] in headers ==> !EqualFold(fold, order[i], key)
  {
    if |order| == 0 then None
    else if order[0] in headers && EqualFold(fold, order[0], key) then Some(headers[order[0]])
    else
      var r := FirstFoldMatch(fold, headers, order[1..], key);
      assert forall i :: 1 <= i < |order| ==> order[i] == order[1..][i - 1];
      r
  }

  /** `getHeaderValue`: the value under `key` itself when present;
      otherwise the value of some key equal to `key` under case folding;
      otherwise the empty string. */
  function GetHeaderValue(fold: char -> char, headers: map<string, string>, order: seq<string>, key: string)
    : (r: string)
    requires Enumerates(order, headers)
    ensures key in headers ==> r == headers[key]
    ensures key !in headers && HasFoldMatch(fold, headers, key) ==>
      exists k :: k in headers && EqualFold(fold, k, key) && r == headers[k]
    ensures !HasFoldMatch(fold, headers, key) ==> r == ""
  {
    if key in headers then headers[key]
    else match FirstFoldMatch(fold, headers, order, key)
      case Some(v) => v
      case None => ""
  }

  /** With a single case-insensitive match and no exact one, the iteration
      order does not matter. */
  lemma UniqueMatchIgnoresOrder(fold: char -> char, headers: map<string, string>,
                                order1: seq<string>, order2: seq<string>, key: string, k: string)
    requires Enumerates(order1, headers) && Enumerates(order2, headers)
    requires key !in headers && k in headers && EqualFold(fold, k, key)
    requires forall k' :: k' in headers && EqualFold(fold, k', key) ==> k' == k
    ensures GetHeaderValue(fold, headers, order1, key) == headers[k]
    ensures GetHeaderValue(fold, headers, order1, key) == GetHeaderValue(fold, headers, order2, key)
  {
  }

  /** API Gateway may deliver header names in lower case. Under any folding
      that agrees with Unicode on ASCII, a lower-case `content-type` key is
      what the lookup of `Content-Type` returns, in every iteration order. */
  lemma LowercaseContentTypeFound(fold: char -> char, v: string, order: seq<string>)
    requires AsciiFold(fold)
    requires Enumerates(order, map["content-type" := v])
    ensures GetHeaderValue(fold, map["content-type" := v], order, "Content-Type") == v
  {
    var headers := map["content-type" := v];
    assert AsciiLowerString("content-type") == AsciiLowerString("Content-Type");
    EqualFoldAscii(fold, "content-type", "Content-Type");
    assert HasFoldMatch(fold, headers, "Content-Type");
  }
}
