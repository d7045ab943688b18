/** The service's exception hierarchy as one datatype. The first seven variants are
    `EnforenceException` and its subclasses; the last three stand for Python's own
    exceptions that cross the pipeline (`NotImplementedError`, `ValueError`, and any
    other exception raised by a collaborator: the database, the network, a missing
    attribute on a decoded payload). */
module Errors {
  import opened Wrappers
  import opened Text

  const DefaultMessage: string := "Внутрішня помилка сервісу"
  const DefaultLlmMessage: string := "Помилка LLM провайдера"
  const DefaultProvider: string := "unknown"
  const DefaultRagMessage: string := "Помилка RAG пайплайну"
  const DefaultGenerationMessage: string := "Помилка генерації документу"
  const DefaultComplianceMessage: string := "Документ не відповідає КМУ №205"
  const DefaultExportMessage: string := "Помилка експорту документу"

  datatype Error =
    | Enforence(message: string)
    | Llm(provider: string, detail: string)
    | Rag(message: string)
    | Generation(message: string)
    | Compliance(message: string)
    | ProjectNotFound(projectId: string)
    | Export(message: string)
    | NotImplemented(message: string)
    | Value(message: string)
    | Other(message: string)
  {
    /** `isinstance(e, EnforenceException)`. */
    predicate IsEnforence() {
      !(NotImplemented? || Value? || Other?)
    }
  }

  /** The constructors with their default arguments (`None` = argument omitted). */
  function NewEnforence(message: Option<string>): Error {
    Enforence(message.GetOr(DefaultMessage))
  }

  function NewLlm(message: Option<string>, provider: Option<string>): Error {
    Llm(provider.GetOr(DefaultProvider), message.GetOr(DefaultLlmMessage))
  }

  function NewRag(message: Option<string>): Error {
    Rag(message.GetOr(DefaultRagMessage))
  }

  function NewGeneration(message: Option<string>): Error {
    Generation(message.GetOr(DefaultGenerationMessage))
  }

  function NewCompliance(message: Option<string>): Error {
    Compliance(message.GetOr(DefaultComplianceMessage))
  }

  function NewExport(message: Option<string>): Error {
    Export(message.GetOr(DefaultExportMessage))
  }

  const NotFoundPrefix: string := "Проєкт з ID "
  const NotFoundSuffix: string := " не знайдено"

  /** `str(e)`, which for the service's exceptions is also `e.message`. */
  function Message(e: Error): string {
    match e
    case Enforence(m) => m
    case Llm(p, d) => "[" + p + "] " + d
    case Rag(m) => m
    case Generation(m) => m
    case Compliance(m) => m
    case ProjectNotFound(id) => NotFoundPrefix + id + NotFoundSuffix
    case Export(m) => m
    case NotImplemented(m) => m
    case Value(m) => m
    case Other(m) => m
  }

  /** Reads the provider tag back out of a message of the form `[provider] ...`. */
  function ProviderTag(message: string): Option<string> {
    if |message| == 0 || message[0] != '[' then None
    else match Find(message[1..], "]")
      case Some(i) => Some(message[1..][..i])
      case None => None
  }

  /** An `LLMError`'s message carries its provider: the tag reads back exactly. */
  lemma LlmMessageNamesProvider(provider: string, detail: string)
    requires !Contains(provider, "]")
    ensures ProviderTag(Message(Llm(provider, detail))) == Some(provider)
  {
    var m := Message(Llm(provider, detail));
    var rest := m[1..];
    assert rest == provider + "] " + detail;
    assert OccursAt(rest, "]", |provider|);
    forall k: nat | k < |provider| ensures !OccursAt(rest, "]", k) {
      assert !OccursAt(provider, "]", k);
      assert provider[k..k + 1] == rest[k..k + 1];
    }
    var f := Find(rest, "]");
    assert f.Some?;
    assert f.value == |provider|;
    assert rest[..|provider|] == provider;
  }

  /** Reads the project id back out of a `ProjectNotFoundError` message. */
  function NotFoundId(message: string): Option<string> {
    if |message| >= |NotFoundPrefix| + |NotFoundSuffix|
       && message[..|NotFoundPrefix|] == NotFoundPrefix
       && message[|message| - |NotFoundSuffix|..] == NotFoundSuffix
    then Some(message[|NotFoundPrefix|..|message| - |NotFoundSuffix|])
    else None
  }

  /** The message of `ProjectNotFoundError(id)` embeds `id`, and only `id`. */
  lemma NotFoundMessageEmbedsId(id: string)
    ensures NotFoundId(Message(ProjectNotFound(id))) == Some(id)
  {
    var m := Message(ProjectNotFound(id));
    assert m[..|NotFoundPrefix|] == NotFoundPrefix;
    assert m[|m| - |NotFoundSuffix|..] == NotFoundSuffix;
    assert m[|NotFoundPrefix|..|m| - |NotFoundSuffix|] == id;
  }
}
