/** The names and identifiers that reach the CI store, each with its alphabet and length. */
module Names {
  import opened Text

  predicate Letter(c: char) {
    'a' <= c <= 'z' || 'A' <= c <= 'Z'
  }

  predicate NameByte(c: char) {
    Letter(c) || IsDigit(c) || c == '.' || c == '_' || c == '-'
  }

  predicate HexText(s: string) {
    forall i | 0 <= i < |s| :: '0' <= s[i] <= '9' || 'a' <= s[i] <= 'f'
  }

  predicate ValidCiId(s: string) {
    0 < |s| <= 64 && forall i | 0 <= i < |s| :: Letter(s[i]) || IsDigit(s[i]) || s[i] == '-'
  }

  predicate ValidObjectId(s: string) {
    (|s| == 40 || |s| == 64) && HexText(s)
  }

  predicate ValidSha256(s: string) {
    |s| == 64 && HexText(s)
  }

  predicate ValidArtifactName(s: string) {
    0 < |s| <= 64 && forall i | 0 <= i < |s| :: NameByte(s[i])
  }

  predicate ValidClientId(s: string) {
    0 < |s| <= 64 && s[0] != '-' &&
    forall i | 0 <= i < |s| :: Letter(s[i]) || IsDigit(s[i]) || s[i] == '-' || s[i] == '_'
  }

  const MAX_LABEL := 32

  predicate LowerOrDigit(c: char) {
    'a' <= c <= 'z' || '0' <= c <= '9'
  }

  predicate ValidLabel(s: string) {
    0 < |s| <= MAX_LABEL && LowerOrDigit(s[0]) && forall i | 0 <= i < |s| :: LowerOrDigit(s[i]) || s[i] in "._-"
  }

  function Lower(s: string): string {
    seq(|s|, i requires 0 <= i < |s| => if 'A' <= s[i] <= 'Z' then 'a' + (s[i] - 'A') else s[i])
  }

  predicate Reserved(s: string) {
    var l := Lower(s);
    l in ["con", "prn", "aux", "nul"] || (|l| == 4 && l[..3] in ["com", "lpt"] && '1' <= l[3] <= '9')
  }

  predicate ValidProjectName(s: string) {
    && 0 < |s| <= 64 && s[0] != '.'
    && (forall i | 0 <= i < |s| - 1 :: !(s[i] == '.' && s[i + 1] == '.'))
    && !(|s| >= 4 && s[|s| - 4..] == ".git")
    && !Reserved(s)
    && forall i | 0 <= i < |s| :: NameByte(s[i])
  }
}
