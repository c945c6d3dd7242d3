/** A `java.net.URI`, taken already parsed into the parts the probe reads. */
module Uris {
  import opened Wrappers
  import opened JavaStrings

  datatype UriParts = UriParts(
    text: string,                 // toString()
    scheme: Option<string>,       // getScheme(), null when the URI is relative
    schemeSpecificPart: string,   // getSchemeSpecificPart()
    fragment: Option<string>)     // getFragment(), null when there is no '#'

  /** A parsed URI has a fragment exactly when its text holds a '#'. */
  type Uri = u: UriParts | u.fragment.Some? <==> '#' in u.text
    witness UriParts("", None, "", None)

  /** `text.substring(0, text.indexOf("#"))`: the URI with its fragment cut off. */
  function BeforeFragment(u: Uri): (r: string)
    requires u.fragment.Some?
    ensures r + "#" <= u.text
    ensures '#' !in r
  {
    var hash := IndexOf(u.text, '#').value;
    assert u.text[..hash + 1] == u.text[..hash] + "#";
    u.text[..hash]
  }
}
