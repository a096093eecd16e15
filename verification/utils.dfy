/** The repository locator: a supported provider name, an owner and a repository name give a clone URL. */
module Utils {
  import opened Wrappers
  import opened Text

  /** The provider names the locator accepts. */
  predicate Supported(provider: string)
  {
    provider == "github" || provider == "gitlab"
  }

  /**
   * `expand_url`: "github" and "gitlab" map to the provider's HTTPS clone URL; any other
   * provider is refused with a message naming it.
   */
  function ExpandUrl(provider: string, username: string, reponame: string): (r: Result<string>)
    ensures r.Ok? <==> Supported(provider)
    ensures provider == "github" ==> r == Ok("https://github.com/" + username + "/" + reponame + ".git")
    ensures provider == "gitlab" ==> r == Ok("https://gitlab.com/" + username + "/" + reponame + ".git")
  {
    match provider
    case "github" => Ok("https://github.com/" + username + "/" + reponame + ".git")
    case "gitlab" => Ok("https://gitlab.com/" + username + "/" + reponame + ".git")
    case _ => Err("Service provider for git with a name '" + provider + "' is not supported!")
  }

  /** An unsupported provider is refused, and the refusal message quotes the provider's name. */
  lemma UnsupportedProviderNamed(provider: string, username: string, reponame: string)
    requires !Supported(provider)
    ensures ExpandUrl(provider, username, reponame).Err?
    ensures Occurs(ExpandUrl(provider, username, reponame).error, provider)
  {
    var prefix := "Service provider for git with a name '";
    var msg := ExpandUrl(provider, username, reponame).error;
    assert msg == prefix + provider + "' is not supported!";
    assert msg[|prefix|..|prefix| + |provider|] == provider;
    assert IsOccurrence(msg, provider, |prefix|);
  }

  /** Every URL the locator produces is an HTTPS URL of a `.git` repository. */
  lemma UrlShape(provider: string, username: string, reponame: string)
    requires ExpandUrl(provider, username, reponame).Ok?
    ensures "https://" <= ExpandUrl(provider, username, reponame).value
    ensures var url := ExpandUrl(provider, username, reponame).value;
      |url| >= 4 && url[|url| - 4..] == ".git"
  {
  }

  /** The two providers never clash: for the same owner and name, GitHub and GitLab URLs differ. */
  lemma ProvidersDistinct(username: string, reponame: string)
    ensures ExpandUrl("github", username, reponame).value != ExpandUrl("gitlab", username, reponame).value
  {
    var gh := ExpandUrl("github", username, reponame).value;
    var gl := ExpandUrl("gitlab", username, reponame).value;
    assert gh[11] == 'h' && gl[11] == 'l';
  }
}
