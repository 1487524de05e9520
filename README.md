# Tenable assets inventory plugin — Dafny model

This project models `InventoryModule`, the Ansible inventory plugin
`jpclipffel.tenable.assets`. The plugin reads its Tenable API endpoint from
the inventory config file and its two API keys from the environment. It
checks the three options and sends one authenticated `GET assets` request.
Then it adds the first host name of every returned asset to the Ansible
inventory.

Files:

- `wrappers.dfy`: `Option`, `Result` and `Outcome`.
- `py_values.dfy`: the Python values the plugin handles. An option value is
  `None`, a string, or another value with its `str()` text. Decoded JSON is
  the `Json` datatype.
- `assets.dfy`: module `Assets`. It holds the option table and its check,
  the headers, the URL, the two API error messages, the projection of the
  asset list, and two classes. `Inventory` is the sink: a `seq<string>` of
  hosts with an `AddHost` method. `InventoryModule` is the plugin: its
  `cfg` field is `self._tenable_cfg`, and it has the methods `LoadCfg`,
  `CheckCfg`, `ApiAssets` and `Parse`.

The HTTP exchange is a parameter, `transport: HttpRequest -> HttpOutcome`.
It maps the request the plugin builds to one of three outcomes: a decoded
body, a `requests.exceptions.RequestException` with its text, or any other
exception with its text. `Parse` also returns the requests it sent. This
lets the model state that a configuration error happens before any network
call.

Each pure function has a specification, and the imperative parts are
proved against it. `CheckCfg` is the loop over the option items, proved
equal to the cascade `Validate`. `ProjectAssets` is the loop over the
assets, proved to append exactly `ProjectList(assets).hosts`. `Parse`
matches the run function `Run`.

In three places the model follows the code rather than a natural reading of it:

- The endpoint is `cfg.get('api_endpoint', default)`. A config key that is
  present with an empty (null) value therefore gives `None`, not the
  default, and the check rejects it.
- A decoding failure is not promised to produce the "Failed to decode"
  message. The message depends on the exception's class: a
  `RequestException` gives the "Failed to run" message, and any other
  exception gives the "Failed to decode" one. In recent `requests` versions
  the JSON decoding error is a `RequestException`.
- A malformed asset is not excluded by a precondition. It is modelled as
  the error `DataFault`. The hosts added before it stay in the inventory,
  and `ProjectListAcceptsIff` proves that well-formed assets never fault.

## Model

| member | source | states |
|---|---|---|
| `Assets.ResolveSources` | jpclipffel/tenable/plugins/inventory/assets.py:48-56 | the endpoint is the config value when the key is present and `https://cloud.tenable.com` otherwise; the access and secret keys are exactly the two environment inputs (a string when set, `None` when unset) |
| `Assets.ValidateAcceptsIff` | jpclipffel/tenable/plugins/inventory/assets.py:57-63 | the option check passes if and only if all three options are strings of length at least 1 |
| `Assets.ValidateNamesFirstInvalid` | jpclipffel/tenable/plugins/inventory/assets.py:57-63 | a failing check raises one options error, and that error names the first bad option in the order `api_endpoint`, `access_key`, `secret_key`; later failures are not aggregated |
| `Assets.OptionsMessageIdentifies` | jpclipffel/tenable/plugins/inventory/assets.py:60-63 | the options error message names the offending key and the plugin name, and different keys give different messages |
| `Assets.InventoryModule.CheckCfg` | jpclipffel/tenable/plugins/inventory/assets.py:57-63 | the loop over the stored option items returns exactly the result of the check specified by `Validate` |
| `Assets.InventoryModule.LoadCfg` | jpclipffel/tenable/plugins/inventory/assets.py:45-63 | stores the resolved option table in `cfg` even when the check fails, then returns the check's result |
| `Assets.ApiKeysInjective` | jpclipffel/tenable/plugins/inventory/assets.py:71-74 | the `X-ApiKeys` value `accessKey=<a>;secretKey=<s>;` determines both keys when the access key holds no `;` |
| `Assets.Headers` | jpclipffel/tenable/plugins/inventory/assets.py:65-76 | the merged headers have the union of the default and caller keys; a caller value wins on a conflict; a default key the caller does not give keeps its default value |
| `Assets.UrlParts` | jpclipffel/tenable/plugins/inventory/assets.py:88 | the URL is the endpoint, one `/`, and the path, and it splits back into the two at the endpoint's length |
| `Assets.UrlKeepsTrailingSlash` | jpclipffel/tenable/plugins/inventory/assets.py:88 | the URL is not normalised: an endpoint that ends in `/` yields `//` |
| `Assets.FailureMessagesMention` | jpclipffel/tenable/plugins/inventory/assets.py:94-103 | both API error messages contain the method, the path and the underlying error text |
| `Assets.FailureMessagesDistinct` | jpclipffel/tenable/plugins/inventory/assets.py:94-103 | a "Failed to run" message never equals a "Failed to decode" message |
| `Assets.ApiOutcome` | jpclipffel/tenable/plugins/inventory/assets.py:85-103 | the API call returns the decoded body exactly when the exchange produced one; otherwise it raises an API error naming the method, the path and the cause |
| `Assets.Hosts` | jpclipffel/tenable/plugins/inventory/assets.py:109-111 | for assets that all have a host name, the result has one host per asset, and host `i` is `hostname[0]` of asset `i` |
| `Assets.ValidPrefix` | jpclipffel/tenable/plugins/inventory/assets.py:109-111 | the loop gets this far: every earlier asset yields a host name, and the asset at this position, if any, raises |
| `Assets.ProjectList` | jpclipffel/tenable/plugins/inventory/assets.py:109-111 | projection adds `hostname[0]` of the leading assets in input order; it completes if and only if it added one host per asset; otherwise it raises a data fault at the first asset without a usable host name |
| `Assets.ProjectListAcceptsIff` | jpclipffel/tenable/plugins/inventory/assets.py:109-111 | projection completes if and only if every asset has a usable host name, and then it adds exactly one host per asset, in order |
| `Assets.ProjectionWithoutAssets` | jpclipffel/tenable/plugins/inventory/assets.py:108 | a response object without an `assets` key adds no host and raises nothing |
| `Assets.ProjectionExample` | jpclipffel/tenable/plugins/inventory/assets.py:108-111 | a response with two assets adds `a.example.com` and `b.example.com` in that order, and the second asset's extra host name is dropped |
| `Assets.ProjectAssets` | jpclipffel/tenable/plugins/inventory/assets.py:109-111 | the loop appends exactly `ProjectList(assets).hosts` to the inventory's hosts; hosts added before a fault stay added |
| `Assets.Inventory.AddHost` | jpclipffel/tenable/plugins/inventory/assets.py:111 | the sink only grows: the new host is appended at the end |
| `Assets.InventoryModule.ApiAssets` | jpclipffel/tenable/plugins/inventory/assets.py:105-111 | sends `GET assets` built from the stored options; a failed call adds nothing; after a successful call the hosts of the projection are appended |
| `Assets.InventoryModule.VerifyFile` | jpclipffel/tenable/plugins/inventory/assets.py:114-115 | every path is accepted |
| `Assets.InventoryModule.Parse` | jpclipffel/tenable/plugins/inventory/assets.py:117-120 | a run loads the options, then fetches and projects the assets; its result, the requests it sent and the hosts it added are those of `Run` |
| `Assets.RunConfigErrorFirst` | jpclipffel/tenable/plugins/inventory/assets.py:117-120 | a run raises an options error if and only if the options are bad, and then it sends no request and adds no host |
| `Assets.RunRequest` | jpclipffel/tenable/plugins/inventory/assets.py:70-76 | with good options, a run sends one `GET` to `<endpoint>/assets` whose only headers are `X-ApiKeys: accessKey=<access>;secretKey=<secret>;` and `Accept: application/json` |
| `Assets.RunTransportFailure` | jpclipffel/tenable/plugins/inventory/assets.py:94-103 | when the call fails, a run adds no host and raises an API error whose message contains `GET` and `assets` |

## Left out

- The HTTP call itself (`requests.request`, `raise_for_status`) and JSON decoding (`response.json()`) are foreign I/O. They are the `transport` parameter.
- Which exception a failed decoding raises depends on the `requests` version. The model only distinguishes a `RequestException` from any other exception.
- Reading the process environment (`os.environ`) and the config file (`_read_config_data`). Their results are the parameters `envAccess`, `envSecret` and `config`.
- The Ansible framework: the base classes, `super().parse`, and `loader` and `cache`, which the plugin only passes on.
- The real `InventoryData.add_host`. It deduplicates hosts and rejects empty or non-string names. The sink here is an append-only sequence of strings. A first host name that is not a string is modelled as `DataFault`.
- The `DOCUMENTATION` string. It declares a `TENABLE_API_ENDPOINT` variable that the code never reads.
- The `data` body parameter and the shared mutable default arguments of `_tenable_headers` and `_tenable_api`. The plugin only calls them with the defaults and never mutates them.
- `_tenable_headers` and `_tenable_api` read the stored option table. Here they take it as the `Config` argument.
- JSON numbers are integers in the model. The plugin never reads a number's value, only its kind.
- Iterating a non-list `assets` value is not traced element by element. An empty string or object visits nothing. A non-empty one raises at its first element, before any host is added. The model reports that as a fault with no hosts added.
