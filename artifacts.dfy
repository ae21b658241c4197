/**
 * The artifact naming contract shared by the trainer (main_lanjutan.py) and
 * the front-end (app.py): a model's display name is turned into the name of
 * the file its fitted estimator is stored in,
 *   "best_" + name.lower().replace(' ', '_') + "_model.pkl".
 */
module Artifacts {

  /** str.lower() on one character (ASCII letters only; see README). */
  function Lower(c: char): char
  {
    if 'A' <= c <= 'Z' then (c as int + 32) as char else c
  }

  /** s.lower() */
  function LowerString(s: string): string
  {
    seq(|s|, i requires 0 <= i < |s| => Lower(s[i]))
  }

  /** s.replace(' ', '_') */
  function ReplaceSpaces(s: string): string
  {
    seq(|s|, i requires 0 <= i < |s| => if s[i] == ' ' then '_' else s[i])
  }

  /** The file name derived from a model's display name. */
  function ModelFilename(name: string): string
  {
    "best_" + ReplaceSpaces(LowerString(name)) + "_model.pkl"
  }

  /** What one character of the display name becomes in the file name. */
  function SlugChar(c: char): char
  {
    if c == ' ' then '_' else Lower(c)
  }

  /**
   * The file name, character by character: "best_", then each character of
   * the display name lower-cased with a space turned into '_', then
   * "_model.pkl".
   */
  lemma ModelFilenameShape(name: string)
    ensures |ModelFilename(name)| == |name| + 15
    ensures ModelFilename(name)[..5] == "best_"
    ensures ModelFilename(name)[|name| + 5..] == "_model.pkl"
    ensures forall i :: 0 <= i < |name| ==> ModelFilename(name)[i + 5] == SlugChar(name[i])
  {
    var f := ModelFilename(name);
    forall i | 0 <= i < |name| ensures f[i + 5] == SlugChar(name[i]) {
      assert f[i + 5] == ReplaceSpaces(LowerString(name))[i];
    }
  }

  /** A derived file name never contains a space or an upper-case ASCII letter. */
  lemma ModelFilenameIsLowerSnake(name: string)
    ensures forall k :: 0 <= k < |ModelFilename(name)| ==>
      ModelFilename(name)[k] != ' ' && !('A' <= ModelFilename(name)[k] <= 'Z')
  {
    var f := ModelFilename(name);
    ModelFilenameShape(name);
    forall k | 0 <= k < |f| ensures f[k] != ' ' && !('A' <= f[k] <= 'Z') {
      if k < 5 {
        assert f[k] == f[..5][k];
      } else if k < |name| + 5 {
        assert f[k] == SlugChar(name[k - 5]);
      } else {
        assert f[k] == f[|name| + 5..][k - |name| - 5];
      }
    }
  }

  /**
   * Two display names share a file exactly when they agree character by
   * character once lower-cased with spaces turned into '_'.
   */
  lemma SameFileIffSameSlug(a: string, b: string)
    ensures ModelFilename(a) == ModelFilename(b) <==>
      |a| == |b| && forall i :: 0 <= i < |a| ==> SlugChar(a[i]) == SlugChar(b[i])
  {
    ModelFilenameShape(a);
    ModelFilenameShape(b);
    if ModelFilename(a) == ModelFilename(b) {
      forall i | 0 <= i < |a| ensures SlugChar(a[i]) == SlugChar(b[i]) {
        assert ModelFilename(a)[i + 5] == ModelFilename(b)[i + 5];
      }
    }
    if |a| == |b| && forall i :: 0 <= i < |a| ==> SlugChar(a[i]) == SlugChar(b[i]) {
      assert ReplaceSpaces(LowerString(a)) == ReplaceSpaces(LowerString(b)) by {
        forall i | 0 <= i < |a|
          ensures ReplaceSpaces(LowerString(a))[i] == ReplaceSpaces(LowerString(b))[i]
        {
          assert ReplaceSpaces(LowerString(a))[i] == SlugChar(a[i]);
          assert ReplaceSpaces(LowerString(b))[i] == SlugChar(b[i]);
        }
      }
    }
  }

  /** The example the front-end's selector relies on. */
  lemma RandomForestFilename()
    ensures ModelFilename("Random Forest") == "best_random_forest_model.pkl"
  {
  }
}
