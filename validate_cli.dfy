/** The helpers of the configuration-validator command (cmd/validate/main.go). */
module ValidateCli {
  import Config

  /** Go strings are byte strings; `len` and slicing count bytes. */
  newtype byte = b: int | 0 <= b < 256

  const Stars: seq<byte> := [42, 42, 42, 42]   // "****"

  /** Masks a secret for display: short secrets become "****" entirely; longer
      ones keep their first two and last two bytes around "****". */
  function MaskString(s: seq<byte>): (r: seq<byte>)
    ensures |s| <= 4 ==> r == Stars
    ensures |s| > 4 ==> |r| == 8 && r[..2] == s[..2] && r[2..6] == Stars && r[6..] == s[|s| - 2..]
  {
    if |s| <= 4 then Stars else s[..2] + Stars + s[|s| - 2..]
  }

  /** The masked text reveals nothing about a secret of at most four bytes,
      not even its length, and about a longer secret only its first two and
      last two bytes. */
  lemma {:induction false} MaskRevealsOnlyEnds(s: seq<byte>, t: seq<byte>)
    requires (|s| <= 4 && |t| <= 4)
          || (|s| > 4 && |t| > 4 && s[..2] == t[..2] && s[|s| - 2..] == t[|t| - 2..])
    ensures MaskString(s) == MaskString(t)
  {
    if |s| > 4 {
      var ms, mt := MaskString(s), MaskString(t);
      assert ms == ms[..2] + ms[2..6] + ms[6..];
      assert mt == mt[..2] + mt[2..6] + mt[6..];
    }
  }

  /** getEnvOrDefault has the same body as the configuration's getEnv. */
  function GetEnvOrDefault(env: Config.Env, key: string, defaultValue: string): (r: string)
    ensures r == Config.GetEnv(env, key, defaultValue)
  {
    if key in env && env[key] != "" then env[key] else defaultValue
  }
}
