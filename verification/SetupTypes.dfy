/**
 What the checkpoint record and the setup run both speak of.
 */
module SetupTypes {
  import opened Text

  datatype ProjectMode = Explicit | Generated

  /** Whether the key was there before the setup, or appeared after its baseline. */
  datatype KeyOrigin = KeyCreated | KeyReused

  /** Whether the setup may have made the writer permission. */
  datatype ShareOrigin = ShareFresh | ShareReused

  // ---- Formats ----

  predicate IsLowerAlnum(c: char) {
    'a' <= c <= 'z' || '0' <= c <= '9'
  }

  /** 6 to 30 lower-case letters, digits and hyphens, starting with a letter and not ending with a hyphen. */
  predicate IsGcpName(s: string) {
    && 6 <= |s| <= 30 && 'a' <= s[0] <= 'z' && IsLowerAlnum(s[|s| - 1])
    && All(c => IsLowerAlnum(c) || c == '-', s)
  }

  predicate IsLowerHex(c: char) {
    '0' <= c <= '9' || 'a' <= c <= 'f'
  }

  /** A lower-case UUID of version 4. */
  predicate IsMarker(s: string) {
    && |s| == 36 && s[14] == '4' && s[19] in "89ab"
    && forall i :: 0 <= i < 36 ==> if i == 8 || i == 13 || i == 18 || i == 23 then s[i] == '-' else IsLowerHex(s[i])
  }

  predicate IsDriveId(s: string) {
    s != "" && All(c => 'A' <= c <= 'Z' || 'a' <= c <= 'z' || '0' <= c <= '9' || c == '_' || c == '-', s)
  }

  /** A project id the options or the generator let through. */
  type ProjectId = s: string | IsGcpName(s) witness "project-a"

  /** A creation marker as the generator makes it. */
  type Marker = s: string | IsMarker(s) witness "00000000-0000-4000-8000-000000000000"

  /** A file id every reply is checked for. */
  type DriveId = s: string | IsDriveId(s) witness "x"

  /** A name of 6 to 30 lower-case letters, digits and hyphens that starts with a letter and does not end with a hyphen. */
  lemma GcpNameExactly(s: string)
    ensures IsGcpName(s) <==>
              && 6 <= |s| <= 30 && 'a' <= s[0] <= 'z' && s[|s| - 1] != '-'
              && forall i :: 0 <= i < |s| ==> 'a' <= s[i] <= 'z' || '0' <= s[i] <= '9' || s[i] == '-'
  {
  }

  /** A marker is a version 4 UUID in lower case. */
  lemma MarkerParts(s: string)
    requires IsMarker(s)
    ensures |s| == 36 && s[8] == s[13] == s[18] == s[23] == '-' && s[14] == '4' && (s[19] == '8' || s[19] == '9' || s[19] == 'a' || s[19] == 'b')
    ensures forall i :: 0 <= i < 36 && s[i] != '-' ==> '0' <= s[i] <= '9' || 'a' <= s[i] <= 'f'
  {
  }
}
