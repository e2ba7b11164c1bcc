/** How the iOS viewer decides where its image comes from. Two independent
    string tests on the URL run one after the other: one starts a remote (or
    base64 data) load, the other a load from a local file; both, one or
    neither may fire for a given URL. Swift strings are modelled as sequences
    of characters. */
module ImageSource {

  /** `p` is a prefix of `s`. */
  predicate StartsWith(s: string, p: string)
  {
    |p| <= |s| && s[..|p|] == p
  }

  /** Swift's `prefix(n)`: the first `n` characters, or the whole string
      when it is shorter. */
  function Prefix(s: string, n: nat): (r: string)
    ensures |r| == if |s| < n then |s| else n
    ensures StartsWith(s, r)
  {
    if |s| <= n then s else s[..n]
  }

  /** Swift's `contains` on strings: `sub` occurs somewhere in `s`. */
  function Contains(s: string, sub: string): (r: bool)
    ensures r <==> exists i :: 0 <= i <= |s| && StartsWith(s[i..], sub)
    decreases |s|
  {
    if StartsWith(s, sub) then
      assert s[0..] == s;
      true
    else if s == [] then false
    else
      var r := Contains(s[1..], sub);
      assert forall i :: 1 <= i <= |s| ==> s[1..][i - 1..] == s[i..];
      r
  }

  /** Comparing `Prefix(s, |p|)` with `p` is the prefix test. */
  lemma PrefixEquals(s: string, p: string)
    ensures Prefix(s, |p|) == p <==> StartsWith(s, p)
  {
  }

  const LocalPhotoLibrary: string := "file:///var/mobile/Media/DCIM/100APPLE"
  const LocalCapacitorFile: string := "capacitor://localhost/_capacitor_file_"

  /** The URL is handed to the remote image loader: it starts with "http" or
      mentions "base64" anywhere. */
  function IsRemoteSource(url: string): (r: bool)
    ensures r <==> StartsWith(url, "http") || exists i :: 0 <= i <= |url| && StartsWith(url[i..], "base64")
  {
    PrefixEquals(url, "http");
    Prefix(url, 4) == "http" || Contains(url, "base64")
  }

  /** The URL is read from the device: its first 38 characters name the photo
      library or Capacitor's local file server. */
  function IsLocalSource(url: string): (r: bool)
    ensures r <==> StartsWith(url, LocalPhotoLibrary) || StartsWith(url, LocalCapacitorFile)
  {
    PrefixEquals(url, LocalPhotoLibrary);
    PrefixEquals(url, LocalCapacitorFile);
    Prefix(url, 38) == LocalPhotoLibrary || Prefix(url, 38) == LocalCapacitorFile
  }

  /** The two tests are not exclusive: a local Capacitor URL whose name
      mentions base64 triggers both loads. */
  lemma BothLoadsCanFire()
    ensures IsRemoteSource("capacitor://localhost/_capacitor_file_base64.png")
    ensures IsLocalSource("capacitor://localhost/_capacitor_file_base64.png")
  {
    var u := "capacitor://localhost/_capacitor_file_base64.png";
    assert StartsWith(u[38..], "base64");
    assert StartsWith(u, LocalCapacitorFile);
  }

  /** A URL with an "http" scheme is never read as a local file. */
  lemma HttpIsNotLocal(url: string)
    requires StartsWith(url, "http")
    ensures IsRemoteSource(url) && !IsLocalSource(url)
  {
    assert url[0] == 'h';
    assert LocalPhotoLibrary[0] == 'f' && LocalCapacitorFile[0] == 'c';
  }
}
