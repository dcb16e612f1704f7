/**
 * The request middleware: the domain is read from the Host header, local hosts pass through,
 * and a request for the root path is rewritten to the path of the domain's page. The route
 * matcher that decides which paths reach the middleware is not part of this model.
 */
module Middleware {
  import opened Wrappers
  import opened Strings

  /** What the middleware answers: pass the request on unchanged, or rewrite it to a path. */
  datatype Decision = Next | Rewrite(pathname: string)

  /** `hostname.replace('www.', '').split(':')[0]`: the first `www.` removed wherever it stands,
   *  then everything from the first `:` on cut off. */
  function DomainOfHost(hostname: string): (d: string)
    ensures ':' !in d
  {
    var parts := Split(ReplaceFirst(hostname, "www.", ""), ':');
    SplitPartsLackSeparator(ReplaceFirst(hostname, "www.", ""), ':');
    assert parts[0] in parts;
    parts[0]
  }

  /** The hosts served without a rewrite. */
  predicate IsLocal(domain: string) {
    domain == "localhost" || domain == "127.0.0.1"
  }

  /** `middleware(request)` for a request with the given Host header (absent is None) and path. */
  function Route(host: Option<string>, pathname: string): (r: Decision)
    ensures r.Rewrite? ==> r.pathname == "/" + DomainOfHost(host.GetOr(""))
  {
    var domain := DomainOfHost(host.GetOr(""));
    if IsLocal(domain) then Next
    else if pathname == "/" then Rewrite("/" + domain)
    else Next
  }

  /** A request is rewritten exactly when it asks for the root path of a non-local host. */
  lemma RewriteIff(host: Option<string>, pathname: string)
    ensures Route(host, pathname).Rewrite?
      <==> pathname == "/" && !IsLocal(DomainOfHost(host.GetOr("")))
  {
  }

  /** Local hosts always pass through, whatever the path. */
  lemma LocalPassesThrough(host: Option<string>, pathname: string)
    requires IsLocal(DomainOfHost(host.GetOr("")))
    ensures Route(host, pathname) == Next
  {
  }

  /** Every path other than the root passes through. */
  lemma OtherPathsPassThrough(host: Option<string>, pathname: string)
    requires pathname != "/"
    ensures Route(host, pathname) == Next
  {
  }

  /** A missing Host header is read as the empty string: the root path is rewritten to `/`. */
  lemma MissingHost()
    ensures Route(None, "/") == Rewrite("/")
    ensures Route(None, "/") == Route(Some(""), "/")
  {
    assert !Contains("", "www.");
    SplitWithoutSeparator("", ':');
  }

  /** A host without `www.` and without a port is its own domain. */
  lemma PlainHostUnchanged(hostname: string)
    requires !Contains(hostname, "www.") && ':' !in hostname
    ensures DomainOfHost(hostname) == hostname
  {
    SplitWithoutSeparator(hostname, ':');
  }

  /** The domain is the host text up to the first `:`, once the first `www.` is gone. */
  lemma DomainIsPrefixBeforePort(hostname: string)
    ensures var h := ReplaceFirst(hostname, "www.", "");
      var d := DomainOfHost(hostname);
      |d| <= |h| && d == h[..|d|] && (|d| < |h| ==> h[|d|] == ':')
  {
    SplitFirstPart(ReplaceFirst(hostname, "www.", ""), ':');
  }

  /** A `www.` anywhere in the host is removed, not only a leading one. */
  lemma InnerWwwRemoved(a: string, b: string)
    requires !Contains(a + "www", "www.")
    requires ':' !in a && ':' !in b
    ensures DomainOfHost(a + "www." + b) == a + b
  {
    var h := a + "www." + b;
    ContainsInfix(a, "www.", b);
    var i := IndexOf(h, "www.").value;
    assert OccursAt(h, "www.", |a|);
    assert h == (a + "www") + ("." + b);
    forall j | 0 <= j < |a| ensures !OccursAt(h, "www.", j) {
      AbsentInPrefix(a + "www", "." + b, "www.", j);
    }
    assert i == |a|;
    assert h[..i] == a;
    assert h[i + 4..] == b;
    assert ReplaceFirst(h, "www.", "") == a + b;
    assert ':' !in a + b;
    SplitWithoutSeparator(a + b, ':');
  }

  /** A text absent from a prefix does not occur at a position that ends inside that prefix. */
  lemma AbsentInPrefix(x: string, y: string, sub: string, j: nat)
    requires !Contains(x, sub) && j + |sub| <= |x|
    ensures !OccursAt(x + y, sub, j)
  {
    assert IndexOfFrom(x, sub, 0).None?;
    assert !OccursAt(x, sub, j);
    assert (x + y)[j..j + |sub|] == x[j..j + |sub|];
  }
}
