/** The connection records of the `jupyterhub` package and the OAuth parameter
    merge `Auth.UpdateAuth`. */
module JupyterHub {

  /** OAuth parameters of a connection. */
  datatype Auth = Auth(clientID: string, clientSecret: string, redirectURL: string)

  /** What is needed to talk to one Hub: a name, the endpoint and the API token. */
  datatype Connection = Connection(name: string, hubURL: string, token: string, auth: Auth)

  const NoAuth := Auth("", "", "")

  /** "A non-empty field wins": the merge that `UpdateAuth` performs. */
  function MergeAuth(a: Auth, update: Auth): (r: Auth)
    ensures update.clientID != "" ==> r.clientID == update.clientID
    ensures update.clientID == "" ==> r.clientID == a.clientID
    ensures update.clientSecret != "" ==> r.clientSecret == update.clientSecret
    ensures update.clientSecret == "" ==> r.clientSecret == a.clientSecret
    ensures update.redirectURL != "" ==> r.redirectURL == update.redirectURL
    ensures update.redirectURL == "" ==> r.redirectURL == a.redirectURL
  {
    Auth(
      if update.clientID != "" then update.clientID else a.clientID,
      if update.clientSecret != "" then update.clientSecret else a.clientSecret,
      if update.redirectURL != "" then update.redirectURL else a.redirectURL)
  }

  /** `Auth.UpdateAuth` has a value receiver: it assigns the fields of its own copy
      of the caller's `Auth`, one `if` at a time. The caller's value is a value
      parameter here too and cannot change; `receiver` is the copy's final value,
      which the Go method discards. */
  method UpdateAuth(a: Auth, update: Auth) returns (receiver: Auth)
    ensures receiver == MergeAuth(a, update)
  {
    receiver := a;
    if update.clientID != "" {
      receiver := receiver.(clientID := update.clientID);
    }
    if update.clientSecret != "" {
      receiver := receiver.(clientSecret := update.clientSecret);
    }
    if update.redirectURL != "" {
      receiver := receiver.(redirectURL := update.redirectURL);
    }
  }

  /** An update with every field empty changes nothing. */
  lemma MergeEmptyIsIdentity(a: Auth)
    ensures MergeAuth(a, NoAuth) == a
  {
  }

  /** Applying the same update twice is the same as applying it once. */
  lemma MergeIdempotent(a: Auth, update: Auth)
    ensures MergeAuth(MergeAuth(a, update), update) == MergeAuth(a, update)
  {
  }

  /** Two successive updates act like one update that is itself the merge of the
      two: the later non-empty field wins. */
  lemma MergeComposes(a: Auth, u1: Auth, u2: Auth)
    ensures MergeAuth(MergeAuth(a, u1), u2) == MergeAuth(a, MergeAuth(u1, u2))
  {
  }

  /** The three fields are merged independently: each result field depends only on
      the same field of the two inputs. */
  lemma MergeFieldwise(a: Auth, b: Auth, u: Auth, v: Auth)
    ensures (a.clientID == b.clientID && u.clientID == v.clientID) ==>
              MergeAuth(a, u).clientID == MergeAuth(b, v).clientID
    ensures (a.clientSecret == b.clientSecret && u.clientSecret == v.clientSecret) ==>
              MergeAuth(a, u).clientSecret == MergeAuth(b, v).clientSecret
    ensures (a.redirectURL == b.redirectURL && u.redirectURL == v.redirectURL) ==>
              MergeAuth(a, u).redirectURL == MergeAuth(b, v).redirectURL
  {
  }
}
