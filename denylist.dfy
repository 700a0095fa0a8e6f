/** The lexical pre-filter shared by the worker and the backend: lower-case the script, walk a
    token list in order, and report the first token that occurs anywhere in the script. */
module Denylist {
  import opened Options
  import opened Text
  import Seqs

  /** `tokens[k]` is the first entry of the list that occurs in `low`. */
  predicate FirstListed(tokens: seq<string>, low: string, k: int) {
    0 <= k < |tokens| && Contains(low, tokens[k])
    && forall j :: 0 <= j < k ==> !Contains(low, tokens[j])
  }

  /** `f"Use of '{tok.strip()}{ending}"`, where the ending closes the quote. */
  function Message(tok: string, ending: string): string {
    "Use of '" + Strip(tok) + ending
  }

  /** The scan: `None` when no token occurs in `code.lower()`, otherwise the message naming the
      first-listed token that does (its place in the list decides, not its place in the code). */
  function Screen(tokens: seq<string>, code: string, ending: string): (r: Option<string>)
    ensures r.None? <==> forall j :: 0 <= j < |tokens| ==> !Contains(Lower(code), tokens[j])
    ensures forall k :: FirstListed(tokens, Lower(code), k) ==> r == Some(Message(tokens[k], ending))
  {
    var low := Lower(code);
    match Seqs.FirstWhere(tokens, tok => Contains(low, tok))
    case None => None
    case Some(k) =>
      assert FirstListed(tokens, low, k);
      assert forall k' :: FirstListed(tokens, low, k') ==> k' == k;
      Some(Message(tokens[k], ending))
  }

  /** The scan ignores case: lower-casing the script first changes nothing. */
  lemma ScreenIgnoresCase(tokens: seq<string>, code: string, ending: string)
    ensures Screen(tokens, Lower(code), ending) == Screen(tokens, code, ending)
  {
    LowerIdempotent(code);
  }
}
