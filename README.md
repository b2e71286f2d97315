# launch-dogly, modelled in Dafny

launch-dogly is an AWS Lambda handler. It receives LaunchDarkly change webhooks and records flag changes as Datadog events. The model covers the whole handler in `src/main.rs`:

- **Hex** (`hex.dfy`): the `hex` crate's `Vec::from_hex` and `hex::encode`, on bytes. Decoding accepts digits of either case and fails on odd length or any other character. Encoding writes lower case. Decoding an encoding gives back the bytes. Conversely, lower-case text that decodes is the encoding of what it decodes to; text with upper-case digits decodes too, but it is not what `hex::encode` writes.
- **Events** (`events.dfy`): the decoded `Payload`, `Member` and `Access` shapes, and `event`, which builds the Datadog event document. Its title joins the member's first and last name, the title verb and the item name with single spaces. Its text is the description. Its three tags are `kind:` with the payload's kind, `name:` with its name, and `action:` with the first access's action. Its `source_type_name` is `launch-darkly`.
- **Signature** (`signature.dfy`): `authenticated`. HMAC-SHA256 is a function-typed parameter (`Mac`, whose results are 32-byte digests), so every property holds for whatever function it is. A missing or non-hexadecimal header fails closed. Otherwise the request is genuine exactly when the decoded header equals the HMAC of the raw body under the secret.
- **Webhook** (`webhook.dfy`): `record` and `handler`, as methods over a `Client` object. The client's ghost `sent` log holds every POST it has made. `handler` also returns a ghost trace of the steps it reached (load configuration, authenticate, decode, filter by kind, build, publish). That trace lets the contract say that a rejected request is never decoded.

Modelling choices:
- The configuration `envy` reads is an `Option<Env>` input.
- The network's reply to the POST is an input (`answer`).
- What `request.payload::<Payload>()` returns for the request is part of the `Request` value (`PayloadResult`).
- The X-LD-Signature header value and the secret are byte sequences. A `HeaderValue` is bytes, `from_hex` reads bytes, and `secret.as_bytes()` is the UTF-8 byte form of the secret.

Behaviour of the code worth knowing:
- `event` indexes `accesses[0]` without a check. So `Event` requires a non-empty `accesses`. For a flag change with an empty `accesses`, `Record` returns `IndexOutOfBounds` and `Handler` returns `Panicked`. Nothing is posted, and no response message is produced: `event` panics instead of returning a build error.
- `record` ignores the HTTP status of Datadog's answer: any response is `Delivered`. `SendResult` does not say why a send failed; any `Err` is only logged (src/main.rs:86). Either way the caller gets the acknowledgement.
- A change of a kind other than "flag" is acknowledged with the success message, just as a published flag change is.

## Model

| member | source | states |
|---|---|---|
| `Hex.FromHex` | src/main.rs:129 | Decoding succeeds iff the text has even length and every character is a hex digit of either case. Then the result has half the text's length, and byte k is the value of digit pair k, high nibble first. |
| `Hex.ToHex` | src/main.rs:170 | The text has twice the length of the bytes. Every character is a lower-case hex digit. Digit pair k reads back as byte k. |
| `Hex.LowerDigit` | src/main.rs:170 | The digit written for a nibble is a lower-case hex digit whose value is that nibble. |
| `Hex.FromHexToHex` | src/main.rs:164-176 | Decoding what `hex::encode` wrote gives back the original bytes. |
| `Hex.ToHexFromHex` | src/main.rs:129 | Lower-case hex text that decodes is exactly the encoding of the bytes it decodes to, so the lower-case encoding is unique. |
| `Events.Event` | src/main.rs:50-67 | For a payload with at least one access: the title is first name, last name, title verb and name joined by single spaces. The text is the description unchanged. The tags are exactly `kind:<kind>`, `name:<name>`, `action:<first action>`, in that order. `source_type_name` is "launch-darkly". |
| `Events.EventTagsRecoverPayload` | src/main.rs:60-64 | Looked up by key, the event's tags give back the payload's kind, name and first action. |
| `Events.EventReadsFirstActionOnly` | src/main.rs:63 | Two payloads that differ only in their accesses, with equal first actions, give the same event. Later accesses are ignored. |
| `Events.SamplePayloadEvent` | src/main.rs:149-161 | The sample payload of the source's test gives exactly the expected event: "Reese Applebaum changed the name of Testing", the description, tags kind:environment, name:Testing and action:updateName, and "launch-darkly". |
| `Signature.Authenticated` | src/main.rs:122-136 | No header means not authenticated. A header that is not hex means not authenticated. Otherwise the request is authenticated iff the decoded bytes equal the HMAC of the body under the secret. |
| `Signature.WrongLengthFails` | src/main.rs:134 | A decoded signature of any length other than 32 bytes never authenticates. |
| `Signature.SignedBodyAuthenticates` | src/main.rs:164-177 | A header holding the hex encoding of the body's HMAC under the secret always authenticates. |
| `Signature.OtherKeyAuthenticates` | src/main.rs:131-135 | A body signed under one key authenticates under another key iff both keys give the body the same digest. |
| `Signature.LowerCaseSignatureIsEncoding` | src/main.rs:126-135 | A lower-case header authenticates iff it is exactly `hex::encode` of the body's digest. |
| `Webhook.EventsUrl` | src/main.rs:79-82 | The URL string `format!` builds is Datadog's events endpoint followed by the API key as it is. |
| `Webhook.RecordedPosts` | src/main.rs:74-84 | A payload causes at most one POST. There is one exactly when the kind is "flag" and there is an access to read. Every POST goes to the events URL, carries the payload's event, and is tagged `kind:flag`. |
| `Webhook.Client.constructor` | src/main.rs:78 | A new client has sent nothing. |
| `Webhook.Client.Send` | src/main.rs:83-84 | Sending appends exactly that POST to the client's log and returns the network's answer. |
| `Webhook.Record` | src/main.rs:70-88 | The client's log grows by exactly the payload's recorded posts. The result is `NotAFlag` iff the kind is not "flag", `IndexOutOfBounds` iff a flag change has no access, and otherwise the send's result, which is only logged. The steps reached stop at the filter, at the build, or go on to publish, accordingly. |
| `Webhook.Handler` | src/main.rs:90-116 | Steps are reached in pipeline order. Any message is one of the three fixed ones. Missing configuration gives the configuration error before authentication. A request that does not authenticate gets "Request not authenticated", is never decoded, and posts nothing. An authenticated request with a decode error or no payload gets "Failed to process request" and posts nothing. A decoded payload is recorded and acknowledged with 👍 whatever the send returned, or panics on an empty `accesses` of a flag change. |

## Left out

- The Lambda runtime, `main`, `lambda!` and `env_logger` initialisation (src/main.rs:44-47): these are runtime plumbing.
- Logging (src/main.rs:86, :100): it has no effect on responses or posts.
- Reading the environment with `envy` (src/main.rs:94-97): configuration is an `Option<Env>` input, and the error becomes `ConfigError` without its text.
- Header lookup in the `http` crate: `Request.signature` stands for `headers().get("X-LD-Signature")`. That lookup ignores case in the header name and takes the first of several values.
- JSON decoding with serde, and the content-type dispatch of `request.payload` (src/main.rs:106, :144): the decode result is part of the `Request` value. JSON rendering with `json!` is left out too: events and responses are records.
- The internals of HMAC and SHA-256 in the `crypto` crate: they are the abstract `Mac` parameter. Properties that depend on the hash, such as a changed body failing to verify or a wrong secret being rejected, are cryptographic assumptions and are not proved. `OtherKeyAuthenticates` states the wrong-secret case relative to the digests.
- Signature.Authenticated: models the constant-time `MacResult` comparison (src/main.rs:134) as plain sequence equality. Its timing behaviour cannot be expressed here.
- The reqwest client and the HTTP exchange itself (src/main.rs:78-85): a POST is an entry appended to the client's ghost log, and the network's answer is an input. The source makes a new client on each `record` call; the model's one client object lives across calls, so `sent` records the posts of every call, not of one client.
- reqwest's parsing of the URL string (src/main.rs:79-82): the `url` crate percent-encodes some characters of the query, drops tabs and newlines, and starts a fragment at `#`, so an API key with such characters is not sent as written. `EventsUrl` is the string before that parsing, and a parse failure is one more kind of `SendError`.
- The error values of `from_hex` (odd length, invalid character and its position): the source discards them with `.ok()`, so the model returns `None`.
- Rust's unwinding after the index panic: `Handler` ends in `Panicked`. The model does not say what the Lambda runtime then reports.
