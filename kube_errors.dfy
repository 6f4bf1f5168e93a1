/** The classifier of internal/resource/errors.go: it rewrites an error
    returned by a Kubernetes call into a user-facing one when it recognises it,
    keeping the original on the wrap chain. */
module KubeErrors {
  import opened Text
  import opened GoErrors

  const UnauthorizedHint := "you are not authorized to access the cluster. Please check if you are logged in and your credentials are valid: "
  const ForbiddenHint := "you do not have permission to perform this action in the cluster: "
  const NoConfigHint := "no Kubernetes configuration found. Please ensure you have a valid kubeconfig file or that your KUBECONFIG environment variable is set: "

  /** The first API status on the wrap chain (errors.As). */
  function StatusOf(e: Error): Option<Error>
    ensures StatusOf(e).Some? ==> StatusOf(e).value.Status?
  {
    match e
    case Status(_, _, _) => Some(e)
    case Plain(_) => None
    case Wrapped(_, inner) => StatusOf(inner)
  }

  /** apierrors.IsUnauthorized: reason Unauthorized, or an unknown reason with HTTP 401. */
  predicate IsUnauthorized(e: Error) {
    var st := StatusOf(e);
    st.Some? && (st.value.reason == Unauthorized || (st.value.reason == UnknownReason && st.value.code == 401))
  }

  /** apierrors.IsForbidden: reason Forbidden, or an unknown reason with HTTP 403. */
  predicate IsForbidden(e: Error) {
    var st := StatusOf(e);
    st.Some? && (st.value.reason == Forbidden || (st.value.reason == UnknownReason && st.value.code == 403))
  }

  /** The lowercased message names a missing kubeconfig. */
  predicate MissingConfiguration(e: Error) {
    var m := Lower(Message(e));
    Contains(m, "no configuration has been provided")
    || Contains(m, "unable to load in-cluster configuration")
    || Contains(m, "couldn't find kubeconfig file")
  }

  /** wrapKubernetesError: nil stays nil; an unauthorized error, then a forbidden
      one, then a missing-configuration one gets its hint in front and stays on
      the chain; anything else is returned unchanged. */
  function WrapKubernetesError(err: Option<Error>): (r: Option<Error>)
    ensures err.None? <==> r.None?
    ensures err.Some? ==> Is(r.value, err.value)
    ensures err.Some? && IsUnauthorized(err.value) ==>
      r.value.Wrapped? && Message(r.value) == UnauthorizedHint + Message(err.value)
    ensures err.Some? && !IsUnauthorized(err.value) && IsForbidden(err.value) ==>
      r.value.Wrapped? && Message(r.value) == ForbiddenHint + Message(err.value)
    ensures err.Some? && !IsUnauthorized(err.value) && !IsForbidden(err.value) && MissingConfiguration(err.value) ==>
      r.value.Wrapped? && Message(r.value) == NoConfigHint + Message(err.value)
    ensures err.Some? && !IsUnauthorized(err.value) && !IsForbidden(err.value) && !MissingConfiguration(err.value) ==>
      r == err
  {
    match err
    case None => None
    case Some(e) =>
      if IsUnauthorized(e) then Some(Wrapped(UnauthorizedHint, e))
      else if IsForbidden(e) then Some(Wrapped(ForbiddenHint, e))
      else if MissingConfiguration(e) then Some(Wrapped(NoConfigHint, e))
      else err
  }

  /** An unauthorized status wrapped in further context is still recognised:
      the result keeps the context text, gains the hint in front and still
      holds the status on its chain. */
  lemma UnauthorizedInsideContext(context: string, status: Error)
    requires status.Status? && status.reason == Unauthorized
    ensures var r := WrapKubernetesError(Some(Wrapped(context, status)));
      r.Some? && Is(r.value, status)
      && HasPrefix(Message(r.value), UnauthorizedHint)
      && Contains(Message(r.value), context)
  {
    var e := Wrapped(context, status);
    assert StatusOf(e) == Some(status);
    var r := WrapKubernetesError(Some(e));
    assert r == Some(Wrapped(UnauthorizedHint, e));
    assert Message(r.value) == UnauthorizedHint + (context + Message(status));
    assert UnauthorizedHint + (context + Message(status)) == UnauthorizedHint + context + Message(status);
    ContainsMiddle(UnauthorizedHint, context, Message(status));
    assert Message(r.value)[..|UnauthorizedHint|] == UnauthorizedHint;
  }

  lemma LowerConcat(a: string, b: string)
    ensures Lower(a + b) == Lower(a) + Lower(b)
  {
  }

  /** The configuration match ignores case and position: any spelling of a
      recognised phrase, anywhere in a plain error's message, gets the hint
      (for an error that is not an API status). */
  lemma MissingConfigurationIgnoresCase(before: string, phrase: string, after: string)
    requires Lower(phrase) == "couldn't find kubeconfig file"
      || Lower(phrase) == "unable to load in-cluster configuration"
      || Lower(phrase) == "no configuration has been provided"
    ensures var e := Plain(before + phrase + after);
      WrapKubernetesError(Some(e)) == Some(Wrapped(NoConfigHint, e))
  {
    var m := before + phrase + after;
    LowerConcat(before + phrase, after);
    LowerConcat(before, phrase);
    ContainsMiddle(Lower(before), Lower(phrase), Lower(after));
  }
}
