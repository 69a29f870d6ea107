/**
 * `mask_key` from backend/test_apis.py: shows the first ten characters of an
 * API key so that it can be recognised without being printed in full.
 * Python's `not key` treats both `None` and `""` as unset.
 */
module TestApis {
  import opened Shared

  const NOT_SET := "(not set)"
  const SHOWN := 10

  function MaskKey(key: Option<string>): (r: string)
    ensures !Truthy(key) ==> r == NOT_SET
    ensures Truthy(key) ==> |r| <= SHOWN + 3
    ensures Truthy(key) ==> key.value[..Min(SHOWN, |key.value|)] <= r
  {
    if !Truthy(key) then NOT_SET
    else if |key.value| > SHOWN then key.value[..SHOWN] + "..."
    else key.value
  }

  function Min(a: int, b: int): int {
    if a < b then a else b
  }

  /** A key of one to ten characters is shown whole; ten is still not truncated. */
  lemma ShortKeyUnchanged(key: string)
    requires 0 < |key| <= SHOWN
    ensures MaskKey(Some(key)) == key
  {
  }

  /** A key longer than ten characters is cut to its first ten, followed by "...". */
  lemma LongKeyTruncated(key: string)
    requires |key| > SHOWN
    ensures MaskKey(Some(key)) == key[..SHOWN] + "..."
    ensures |MaskKey(Some(key))| == SHOWN + 3
  {
  }
}
