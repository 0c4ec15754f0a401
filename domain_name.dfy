/**
 * The command-line front end's domain splitter: a fully-qualified name is cut
 * on "." into the subdomain and the registrable domain (its last two labels).
 */
module DomainName {
  import opened Wrappers
  import opened Strings

  datatype ParseError = InvalidDomain(domain: string)

  /** The three results of the splitter: subdomain, domain and error. */
  datatype Parsed = Parsed(sub: string, dom: string, err: Option<ParseError>)

  /**
   * Split `domain` on "."; fewer than two pieces is an error with empty
   * results, otherwise the last two pieces form the domain and the others,
   * rejoined, the subdomain.
   */
  function ParseDomain(domain: string): (r: Parsed)
    ensures r.err.Some? <==> '.' !in domain
    ensures r.err.Some? ==> r.sub == "" && r.dom == "" && r.err.value == InvalidDomain(domain)
  {
    var parts := Split(domain);
    if |parts| < 2 then Parsed("", "", Some(InvalidDomain(domain)))
    else
      var dom := Join(parts[|parts| - 2..]);
      var sub := if |parts| > 2 then Join(parts[..|parts| - 2]) else "";
      Parsed(sub, dom, None)
  }

  /** A slice of dot-free labels is dot-free. */
  lemma LabelsOfSlice(parts: seq<string>, lo: nat, hi: nat)
    requires lo <= hi <= |parts|
    requires forall i :: 0 <= i < |parts| ==> '.' !in parts[i]
    ensures forall i :: 0 <= i < hi - lo ==> '.' !in parts[lo..hi][i]
  {
  }

  /** On success the domain is the last two labels of the input, so it holds exactly one ".". */
  lemma DomainIsLastTwoLabels(domain: string)
    requires ParseDomain(domain).err.None?
    ensures var parts := Split(domain);
            Split(ParseDomain(domain).dom) == parts[|parts| - 2..]
    ensures Dots(ParseDomain(domain).dom) == 1
  {
    var parts := Split(domain);
    var last := parts[|parts| - 2..];
    var dom := ParseDomain(domain).dom;
    assert dom == Join(last);
    LabelsOfSlice(parts, |parts| - 2, |parts|);
    SplitJoin(last);
    DotsJoin(last);
  }

  /** With exactly two labels the subdomain is empty and the domain is the input itself. */
  lemma ApexName(domain: string)
    requires |Split(domain)| == 2
    ensures ParseDomain(domain) == Parsed("", domain, None)
  {
    var parts := Split(domain);
    assert parts[|parts| - 2..] == parts;
    JoinSplit(domain);
  }

  /**
   * With three or more labels, subdomain "." domain is the input again, even
   * when the subdomain is empty (".example.com").
   */
  lemma SubdomainRoundTrip(domain: string)
    requires |Split(domain)| > 2
    ensures var r := ParseDomain(domain); r.sub + "." + r.dom == domain
  {
    var parts := Split(domain);
    var n := |parts|;
    assert parts == parts[..n - 2] + parts[n - 2..];
    JoinAppend(parts[..n - 2], parts[n - 2..]);
    JoinSplit(domain);
  }

  /** With three or more labels the subdomain keeps every label but the last two, in order. */
  lemma SubdomainKeepsLabels(domain: string)
    requires |Split(domain)| > 2
    ensures var parts := Split(domain);
            Split(ParseDomain(domain).sub) == parts[..|parts| - 2]
  {
    var parts := Split(domain);
    var front := parts[..|parts| - 2];
    var sub := ParseDomain(domain).sub;
    assert sub == Join(front);
    LabelsOfSlice(parts, 0, |parts| - 2);
    SplitJoin(front);
  }

  /** The documented two-label case ("example.com"): no subdomain, the whole name is the domain. */
  lemma TwoLabels(a: string, b: string)
    requires '.' !in a && '.' !in b
    ensures ParseDomain(a + "." + b) == Parsed("", a + "." + b, None)
  {
    var labels := [a, b];
    assert Join(labels) == a + "." + b;
    SplitJoin(labels);
    assert labels[0..] == labels;
  }

  /**
   * The documented three-label cases: "foo.example.com" gives "foo", and a
   * wildcard "*" or an empty first label is an ordinary subdomain.
   */
  lemma ThreeLabels(a: string, b: string, c: string)
    requires '.' !in a && '.' !in b && '.' !in c
    ensures ParseDomain(a + "." + b + "." + c) == Parsed(a, b + "." + c, None)
  {
    var labels := [a, b, c];
    assert Join(labels[1..]) == b + "." + c by { assert labels[1..] == [b, c]; }
    assert Join(labels) == a + "." + b + "." + c;
    SplitJoin(labels);
    assert labels[..1] == [a];
  }

  /** The documented four-label case: "foo.bar.example.com" gives "foo.bar" and "example.com". */
  lemma FourLabels(a: string, b: string, c: string, d: string)
    requires '.' !in a && '.' !in b && '.' !in c && '.' !in d
    ensures ParseDomain(a + "." + b + "." + c + "." + d) == Parsed(a + "." + b, c + "." + d, None)
  {
    var labels := [a, b, c, d];
    assert Join(labels[2..]) == c + "." + d by { assert labels[2..] == [c, d]; }
    assert Join(labels[..2]) == a + "." + b by { assert labels[..2] == [a, b]; }
    assert Join(labels[1..]) == b + "." + c + "." + d by { assert labels[1..] == [b, c, d]; assert labels[1..][1..] == [c, d]; }
    assert Join(labels) == a + "." + b + "." + c + "." + d;
    SplitJoin(labels);
  }
}
