/** Model of backend/utils.py: session identifiers and the context loader. */
module Utils {
  import opened Wrappers

  /** `create_id_session`'s default length. */
  const DefaultIdLength: nat := 4

  /** Size of `string.ascii_uppercase`. */
  const LetterCount: nat := 26

  /** The d-th character of `string.ascii_uppercase` ("ABC...Z"). */
  function Uppercase(d: nat): (c: char)
    requires d < LetterCount
    ensures 'A' <= c <= 'Z'
  {
    (('A' as int) + d) as char
  }

  /**
   * `create_id_session(k)`: `random.choices` draws k letters with replacement and they are
   * joined. The draws are the indices chosen; a negative k draws nothing.
   */
  function CreateIdSession(k: int, draws: seq<nat>): (id: string)
    requires |draws| == (if k < 0 then 0 else k)
    requires forall i :: 0 <= i < |draws| ==> draws[i] < LetterCount
    ensures k >= 0 ==> |id| == k
    ensures k < 0 ==> id == ""
    ensures forall i :: 0 <= i < |id| ==> 'A' <= id[i] <= 'Z'
    ensures forall i :: 0 <= i < |id| ==> id[i] == Uppercase(draws[i])
  {
    seq(|draws|, i requires 0 <= i < |draws| => Uppercase(draws[i]))
  }

  /** Every identifier draws to exactly one sequence of letters: the draws can be read back. */
  lemma IdDeterminesDraws(k: int, d1: seq<nat>, d2: seq<nat>)
    requires |d1| == (if k < 0 then 0 else k) && |d2| == |d1|
    requires forall i :: 0 <= i < |d1| ==> d1[i] < LetterCount
    requires forall i :: 0 <= i < |d2| ==> d2[i] < LetterCount
    requires CreateIdSession(k, d1) == CreateIdSession(k, d2)
    ensures d1 == d2
  {
    forall i | 0 <= i < |d1| ensures d1[i] == d2[i] {
      assert CreateIdSession(k, d1)[i] == CreateIdSession(k, d2)[i];
    }
  }

  /** Where `CONTEXT_CV_PATH` points (backend/paths.py). */
  const ContextCvPath := "docs/descriptif_cv_for_llm.txt"

  /** The context file as the file system presents it: whether the path exists and its text. */
  datatype ContextFile = ContextFile(present: bool, text: string)

  datatype FileError = FileNotFound(path: string)

  /** `get_context`: the file's text when the path exists, `FileNotFoundError` otherwise. */
  function GetContext(file: ContextFile): (r: Result<string, FileError>)
    ensures r.Success? <==> file.present
    ensures r.Success? ==> r.value == file.text
    ensures r.Failure? ==> r.error == FileNotFound(ContextCvPath)
  {
    if file.present then Success(file.text) else Failure(FileNotFound(ContextCvPath))
  }
}
