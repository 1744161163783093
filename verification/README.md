# Functional options for an HTTP server configuration

This project models the functional-options constructor of a small Go HTTP
server bootstrap (`main.go`). `NewServer` allocates an `http.Server`
holding fixed defaults: address `":8080"`, 5-second read and write timeouts,
no handler. It then calls each supplied option on that one server, in the
order given. Each `With*` function returns an option that overwrites one
field. `WithTimeouts` returns an option that runs the read-timeout option
and then the write-timeout option. The entry point builds a server on
`":8099"` with its request multiplexer and 15-second timeouts.

Everything lives in module `HttpOptions` (`server_options.dfy`):

- `Duration` is `time.Duration`: a signed 64-bit count of nanoseconds, so
  5 seconds is `5_000_000_000`.
- `ServerOption<H>` stands in for the closures: one constructor per `With*`
  function, carrying that function's arguments. `H` is the opaque handler
  type. `WithHandler` carries an `Option<H>`, since a Go interface argument
  may be nil.
- The value layer: `Config` holds the four fields, `Defaults` is the
  starting record, `ApplyTo` is the effect of one option, and `ApplyAll` and
  `Build` fold a list of options. `Target` is an independent, declarative
  reading of the options: for each field, which value an option writes
  there, if any. `Get` reads a field by name.
- The object layer follows the program's in-place updates. Class `Server`
  has the four fields. `Server.Apply` runs one option by assigning fields,
  and `NewServer` allocates a server and runs the options in a loop whose
  invariant ties the server to `Build` of the prefix already applied.

## Model

| member | source | states |
|---|---|---|
| `HttpOptions.Server.constructor` | main.go:19-23 | A new server holds address ":8080", 5 s read and write timeouts and no handler. |
| `HttpOptions.Server.Apply` | main.go:32-61 | Running an option in place leaves the server's fields equal to the option's effect on the previous fields. `WithTimeouts` does this by running the read then the write option. |
| `HttpOptions.NewServer` | main.go:12-30 | Returns a freshly allocated server whose fields are the defaults with every option applied, first to last. |
| `HttpOptions.NoOptionsGivesDefaults` | main.go:13-23 | With an empty option list the result is address ":8080", read and write timeouts of 5,000,000,000 ns, and no handler. |
| `HttpOptions.ApplyAllAppend` | main.go:25-27 | Applying the list `a + b` equals applying `a` and then applying `b` to that result. |
| `HttpOptions.LastWriteWins` | main.go:25-27 | If option `i` targets field `f` and no later option does, then `f` in the result holds the value option `i` wrote. |
| `HttpOptions.UntouchedKeepsDefault` | main.go:19-27 | A field that no option in the list targets keeps its default value in the result. |
| `HttpOptions.ApplyToFrame` | main.go:32-61 | An option writes each field it targets with the value it carries. Every other field is left unchanged. |
| `HttpOptions.SingleFieldOption` | main.go:39-61 | Each option other than `WithTimeouts` targets one field and leaves every other field unchanged. |
| `HttpOptions.StoredAsGiven` | main.go:39-61 | No validation: any duration (zero or negative too), any address (empty too) and any handler, nil included, is stored exactly as given. |
| `HttpOptions.TimeoutsIsReadThenWrite` | main.go:32-37 | `WithTimeouts(r, w)` equals `WithReadTimeout(r)` followed by `WithWriteTimeout(w)`. It sets the read timeout to `r` and the write timeout to `w` and keeps the address and handler. |
| `HttpOptions.TimeoutsExpandsInList` | main.go:25-37 | Anywhere in an option list, `WithTimeouts(r, w)` can be replaced by the read option followed by the write option without changing the result. |
| `HttpOptions.ApplyToIdempotent` | main.go:39-61 | Running the same option twice in a row gives the same record as running it once. |
| `HttpOptions.RepeatedOptionIsIdempotent` | main.go:25-27 | Anywhere in an option list, giving an option twice in a row gives the same result as giving it once. |
| `HttpOptions.UnrelatedOptionsCommute` | main.go:25-61 | Two options that target no common field give the same record in either order. |
| `HttpOptions.BootstrapConfig` | main.go:68-72 | The entry point's option list yields address ":8099", the multiplexer as handler, and read and write timeouts of 15,000,000,000 ns. |
| `HttpOptions.BootstrapServer` | main.go:68-72 | The entry point's construction returns a fresh server with address ":8099", the multiplexer as handler, and 15 s timeouts. |

## Left out

- `srv.ListenAndServe()` and `log.Fatal` (main.go:73) are not modelled. They are blocking network I/O and process termination in `net/http` and `log`.
- The `ServeMux`, its `/ping` route and the handler body (main.go:64-67) are not modelled. They are library calls plus JSON encoding; the multiplexer is an opaque value of type `H`.
- Options are limited to the five `With*` constructors. An arbitrary user-written closure of type `ServerOption` is not modelled, and neither is a nil option in the list, which would panic when called.
- Every other `http.Server` field is left out, as are the connection handling, the enforcement of timeouts and the concurrency of the Go runtime.
- `time.Duration` arithmetic is limited to the constants `5 * time.Second` and `15 * time.Second`. Their products are computed exactly and fit in 64 bits.
