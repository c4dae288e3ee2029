/** The loop of `private_key_from_pem` (src/tls_rustls/mod.rs:473-500) over the decoded sections of a file. */
module KeyFile {
  import opened Prelude

  datatype KeyError = NoKeys | ParseFailed | MultipleKeys

  predicate IsKey<Key, E>(items: seq<Result<Key, E>>, k: nat) {
    k < |items| && items[k].Ok?
  }

  /** Section `k` is a key, and the only one. */
  ghost predicate OnlyKey<Key, E>(items: seq<Result<Key, E>>, k: nat) {
    IsKey(items, k) && forall j: nat :: IsKey(items, j) ==> j == k
  }

  /**
   A file is accepted exactly when one of its sections is a key, wherever it stands among sections
   that fail to parse, and that key is the result; otherwise the error says how it was not one.
   */
  method PrivateKeyFromPem<Key, E>(items: seq<Result<Key, E>>) returns (r: Result<Key, KeyError>)
    ensures r.Ok? <==> exists k: nat :: OnlyKey(items, k)
    ensures forall k: nat :: OnlyKey(items, k) ==> r == Ok(items[k].value)
    ensures r == Err(MultipleKeys) <==> exists j: nat, k: nat :: j < k && IsKey(items, j) && IsKey(items, k)
    ensures r == Err(NoKeys) <==> items == []
    ensures r == Err(ParseFailed) <==> items != [] && forall k: nat :: !IsKey(items, k)
  {
    var keyResult: Result<Key, KeyError> := Err(NoKeys);
    ghost var at: nat := 0;
    for n := 0 to |items|
      invariant keyResult.Ok? ==> at < n && IsKey(items, at) && keyResult.value == items[at].value
      invariant keyResult.Ok? ==> forall j: nat :: j < n && IsKey(items, j) ==> j == at
      invariant keyResult.Err? ==> forall j: nat :: j < n ==> !IsKey(items, j)
      invariant keyResult.Err? ==> keyResult.error == if n == 0 then NoKeys else ParseFailed
    {
      var key: Result<Key, KeyError> := match items[n] case Ok(k) => Ok(k) case Err(_) => Err(ParseFailed);
      match keyResult {
        case Ok(_) =>
          if key.Ok? {
            assert IsKey(items, at) && IsKey(items, n);
            return Err(MultipleKeys);
          }
        case Err(_) =>
          keyResult := key;
          at := n;
      }
    }
    assert keyResult.Ok? ==> OnlyKey(items, at);
    return keyResult;
  }
}
