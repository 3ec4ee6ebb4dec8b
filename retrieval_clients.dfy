/**
 * `AzureUrlClient`: rebuilds the public blob-storage url of a stored page from its
 * source name, the storage account and the container.
 */
module RetrievalClients {
  import opened PyValues

  /** What every url of one account and container starts with. */
  function BlobPrefix(storageAccount: string, container: string): string {
    "https://" + storageAccount + ".blob.core.windows.net/" + container + "/"
  }

  /** `AzureUrlClient(source, storageaccount, container)`. */
  function AzureUrlClient(source: string, storageAccount: string, container: string): (url: string)
    ensures |url| == |BlobPrefix(storageAccount, container)| + |source|
    ensures url[..|BlobPrefix(storageAccount, container)|] == BlobPrefix(storageAccount, container)
    ensures url[|BlobPrefix(storageAccount, container)|..] == source
  {
    var endpoint := "https://" + storageAccount + ".blob.core.windows.net";
    endpoint + "/" + container + "/" + source
  }

  /** The source name a url of this account and container was built from, if it is one. */
  function SourceOf(url: string, storageAccount: string, container: string): Option<string> {
    var prefix := BlobPrefix(storageAccount, container);
    if |prefix| <= |url| && url[..|prefix|] == prefix then Some(url[|prefix|..]) else None
  }

  /** Every url starts with the account's blob endpoint and ends with "/" and the source. */
  lemma UrlShape(source: string, storageAccount: string, container: string)
    ensures var url := AzureUrlClient(source, storageAccount, container);
      var endpoint := "https://" + storageAccount + ".blob.core.windows.net/";
      && |endpoint| <= |url| && url[..|endpoint|] == endpoint
      && |source| + 1 <= |url| && url[|url| - |source| - 1..] == "/" + source
  {
  }

  /** The source is recovered from its url. */
  lemma SourceOfUrl(source: string, storageAccount: string, container: string)
    ensures SourceOf(AzureUrlClient(source, storageAccount, container), storageAccount, container) == Some(source)
  {
  }

  /** For one account and container, distinct sources give distinct urls. */
  lemma UrlInjective(s1: string, s2: string, storageAccount: string, container: string)
    requires s1 != s2
    ensures AzureUrlClient(s1, storageAccount, container) != AzureUrlClient(s2, storageAccount, container)
  {
  }
}
