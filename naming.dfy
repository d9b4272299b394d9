/**
 * How a request names its two artifacts: the stored upload is a fresh
 * identifier followed by the upload's extension, and the annotated result is
 * the stored name behind a fixed prefix, so that each is found from the other.
 */
module Naming {
  import opened Wrappers

  const DEFAULT_EXTENSION: string := ".jpg"
  const RESULT_PREFIX: string := "result_"
  const TEST_PREFIX: string := "test_"

  /** `os.path.splitext(file.filename)[1] or ".jpg"`, given the extension already split off. */
  function Extension(uploadExtension: string): (e: string)
    ensures e != ""
    ensures uploadExtension != "" ==> e == uploadExtension
    ensures uploadExtension == "" ==> e == DEFAULT_EXTENSION
  {
    if uploadExtension == "" then DEFAULT_EXTENSION else uploadExtension
  }

  /** `f"{uuid.uuid4()}{file_extension}"`: the identifier followed by a never-empty extension. */
  function StoredName(id: string, uploadExtension: string): (name: string)
    ensures |id| < |name| && name[..|id|] == id
    ensures uploadExtension != "" ==> name[|id|..] == uploadExtension
    ensures uploadExtension == "" ==> name[|id|..] == DEFAULT_EXTENSION
  {
    id + Extension(uploadExtension)
  }

  /** The stored name of the built-in test image: `f"test_{uuid.uuid4()}.jpg"`. */
  function TestImageName(id: string): (name: string)
    ensures |TEST_PREFIX| < |name| && name[..|TEST_PREFIX|] == TEST_PREFIX
    ensures name[|TEST_PREFIX|..] == StoredName(id, "")
  {
    TEST_PREFIX + id + DEFAULT_EXTENSION
  }

  /** `f"result_{filename}"`. */
  function ResultName(stored: string): (name: string)
    ensures |name| == |RESULT_PREFIX| + |stored|
    ensures name[..|RESULT_PREFIX|] == RESULT_PREFIX && name[|RESULT_PREFIX|..] == stored
  {
    RESULT_PREFIX + stored
  }

  /** The stored name a result name was derived from, if it is a result name at all. */
  function StoredNameOf(result: string): Option<string> {
    if |RESULT_PREFIX| <= |result| && result[..|RESULT_PREFIX|] == RESULT_PREFIX
    then Some(result[|RESULT_PREFIX|..])
    else None
  }

  /** From the result name the stored name is recovered. */
  lemma ResultNameRoundTrip(stored: string)
    ensures StoredNameOf(ResultName(stored)) == Some(stored)
  {
  }

  /** Every name of the form `result_<s>` is the result name of `s`. */
  lemma StoredNameOfInverts(result: string, stored: string)
    requires StoredNameOf(result) == Some(stored)
    ensures ResultName(stored) == result
  {
    assert result == result[..|RESULT_PREFIX|] + result[|RESULT_PREFIX|..];
  }

  /**
   * Distinct identifiers of one length (UUIDs have 36 characters) give
   * distinct stored names and distinct result names, whatever the extensions:
   * two requests never write to the same path.
   */
  lemma DistinctIdsDistinctNames(id1: string, ext1: string, id2: string, ext2: string)
    requires |id1| == |id2| && id1 != id2
    ensures StoredName(id1, ext1) != StoredName(id2, ext2)
    ensures ResultName(StoredName(id1, ext1)) != ResultName(StoredName(id2, ext2))
  {
    var n1, n2 := StoredName(id1, ext1), StoredName(id2, ext2);
    assert n1[..|id1|] == id1 && n2[..|id2|] == id2;
    ResultNameRoundTrip(n1);
    ResultNameRoundTrip(n2);
  }
}
