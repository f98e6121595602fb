/** Setting names and the environment keys derived from them.

    `Settings.register` looks the setting up in the environment under
    `var_name.to_s.upcase`. The model restricts names to ASCII upper-casing:
    the letters `a`..`z` become `A`..`Z` and every other character is kept.
 */
module Names {

  /** ASCII upper-casing of one character. */
  function UpChar(c: char): (u: char)
    ensures !('a' <= u <= 'z')
    ensures !('a' <= c <= 'z') ==> u == c
    ensures 'a' <= c <= 'z' ==> u as int == c as int - 32
  {
    if 'a' <= c <= 'z' then (c as int - 32) as char else c
  }

  /** `String#upcase` on an ASCII name: every character upper-cased in place. */
  function Upcase(s: string): string
  {
    seq(|s|, k requires 0 <= k < |s| => UpChar(s[k]))
  }

  /** The environment key of a name is as long as the name, keeps every
      character that is not a lower-case ASCII letter, and holds no
      lower-case ASCII letter. */
  lemma UpcaseShape(s: string)
    ensures |Upcase(s)| == |s|
    ensures forall k :: 0 <= k < |s| && !('a' <= s[k] <= 'z') ==> Upcase(s)[k] == s[k]
    ensures forall k :: 0 <= k < |s| ==> !('a' <= Upcase(s)[k] <= 'z')
  {
  }

  /** Upper-casing twice is upper-casing once. */
  lemma UpcaseIdempotent(s: string)
    ensures Upcase(Upcase(s)) == Upcase(s)
  {
  }

  /** Names that differ only in the case of ASCII letters share one
      environment key; the keys of the registrations in the class body. */
  lemma UpcaseExamples()
    ensures Upcase("wifi_name") == Upcase("WiFi_Name") == "WIFI_NAME"
    ensures Upcase("wifi_password") == "WIFI_PASSWORD"
    ensures Upcase("api_base_url") == "API_BASE_URL"
    ensures Upcase("api_username") == "API_USERNAME"
    ensures Upcase("api_password") == "API_PASSWORD"
  {
  }
}
