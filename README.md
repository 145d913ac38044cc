# Repair-shop backend and client screens, in Dafny

This project models a small car-repair shop application. The application has two parts:

- an Express backend over PostgreSQL, `backend/server.js`;
- a React Native client, whose screens are in `screens/`.

**Backend model.** The backend's tables become the fields of one class, `Server.Shop`:

- users, vehicles and parts (*repuestos*);
- priced repair line items (*reparaciones*);
- revisions;
- the revision-to-line-item attachments;
- invoices (*informes*).

Each route handler becomes one member of `Shop`:

- a **method** when it writes to a table. Its `ensures` give the status it answers and the complete new state of the tables it may change.
- a **function** when it only reads. It returns the rows, with the route's role scoping and ordering.

The middleware `authenticateToken` is `Auth.Authenticate`. The handlers behind it take the claims it lets through as the parameter `caller`.

The class invariant `Shop.Valid()` covers every table, and every method preserves it. It states:

- each key agrees with the row it points to;
- `correo` is unique;
- the serial ids are positive and below their sequence;
- every foreign key has its target;
- a paid invoice carries a non-empty signature.

**Client model.** The screens keep state in hooks; that state becomes classes with fields. The rules they apply before sending anything are pure functions:

- the forms: `VehiculosScreen.VehiculoForm`, `Registration.RegisterForm`, `LoginScreen.LoginForm`;
- the pure rules: the cédula and phone formatters, the revision screen's repair picker, the payment payload and the decision mapping.

Several lemmas cross from a screen to the server: what a screen sends passes the server's checks, or the server does what the screen's user intended. Examples:

- a vehicle's owner;
- a signed payment;
- an attachment id;
- an approved revision reaching `entrega`.

**Shared modules:**

- `Js`: JavaScript's absent, `null` and falsy values. `!x` and `x == null` are told apart: `!x` is true for `undefined`, `null`, `""` and `0`, while `x == null` is true only for the first two.
- `Text`: the string operations the code uses (`replace(/[^0-9]/g,'')`, `substring`, first-occurrence `replace`, `split(' ')[1]`, `toUpperCase`).
- `Ordering`: `ORDER BY … DESC` as a function of a set of rows.
- `Http`: the statuses.

**Modelling choices:**

- An insert whose column default is `NOW()` takes the time as a parameter `now`.
- bcrypt and JWT are the abstract functions and flags of `Auth.Config`.
- The `POST /api/informes` transaction takes a parameter `TxFault` that names which of its steps fails, if any.

**Where the behaviour rests on the schema.** The table definitions are not part of this model. The application documents its tables, keys and references, and the model follows that data model where it says something:

- a duplicate primary or unique key answers 409;
- a reference without its target answers 500;
- a new revision starts as `en_espera` and not yet answered, the values the client screens expect.

Three points go beyond what the data model states, and are assumptions of this model:

- the id sequence of a serial column advances whenever an insert is attempted, even one that then fails, as PostgreSQL sequences do (`Server.Shop.PostReparacion`, `PostRevision`, `PostInforme`);

- the references to a vehicle keep PostgreSQL's default `NO ACTION` rule, so deleting a vehicle that revisions or invoices still refer to answers 500 (`Server.Shop.DeleteVehiculo`);
- an invoice's placa is `NOT NULL`, so `POST /api/informes` without a placa fails in the insert (`Server.Shop.PostInforme`).

**Where the code and the documented design differ, the model follows the code:**

- **Unknown invoice id.** `PUT /api/informes/:id/estado` answers 200 for an unknown id.
- **Finalising without a signature.** The same route answers 500, not 400, for `pendiente` without a signature, because `Buffer.from(undefined)` throws.
- **Signature and payment state.** The design says an invoice has a signature exactly when it is paid. The code allows a `pendiente` invoice to carry one, so `Valid()` keeps only the direction "paid ⇒ signed".
- **Invoice listings.** `GET /api/informes` has no role check. `GET /api/informes-cliente` scopes by ownership for administrators too.
- **Revision access.** `GET /api/revision/:id` and `PUT /api/revision/:id` check neither role nor ownership, and the PUT accepts any state.
- **Attachment duplicates.** Attaching the same line item to a revision twice is accepted.
- **The pad's empty image.** A signature consisting of nothing but the `data:image/png;base64,` header strips to the empty string. The server refuses it with 400 (`InformesScreen.PaymentAccepted`).

## Model

| member | source | states |
|---|---|---|
| `Auth.Authenticate` | backend/server.js:41-63 | No bearer token is 401; a missing secret is 500; a token that fails verification is 403. Only a verified token reaches the handler, carrying exactly the token's claims. Each status holds if and only if its condition does. |
| `Auth.BearerHeaderPasses` | backend/server.js:42-63 | A header `"<scheme> <token>"` whose token verifies passes with that token's claims: the token is the second space-separated field. |
| `Auth.HeaderWithoutSpaceRejected` | backend/server.js:42-47 | A header with no space carries no token and is answered 401. |
| `Server.Shop.Register` | backend/server.js:67-92 | Missing fields or a role outside {cliente, administrador} is 400. The role defaults to cliente only when it is absent. A taken cédula or correo is 409, with no user inserted. Otherwise exactly the new user is added with the password's hash. Login with the same credentials then succeeds with claims {cedula, rol}. |
| `Server.Shop.Login` | backend/server.js:94-136 | Missing fields is 400. An unknown cédula or a password not matching the stored hash is 401. A missing secret is 500. The login succeeds exactly when the fields are present, the cédula is known, the password matches and the secret is set. On success the user comes without its hash, and the token carries exactly that user's cédula and role. |
| `Server.Shop.Usuarios` | backend/server.js:138-151 | 403 for anyone but an administrador; otherwise exactly the (cédula, nombre) pairs of the stored users. |
| `Server.Shop.Vehiculos` | backend/server.js:154-173 | An administrador sees every vehicle; anyone else sees exactly the vehicles it owns. Every row appears once, newest registration first. |
| `Server.Shop.PostVehiculo` | backend/server.js:175-196 | A missing placa, marca or modelo is 400 whatever the role. The owner is the caller, or `propietario_cedula \|\| caller` for an administrador. A taken placa is 409 and an owner who is not a user is 500; in those cases the table is unchanged. Otherwise exactly the new vehicle is added. |
| `Server.Shop.PutVehiculo` | backend/server.js:198-228 | A missing marca or modelo is 400. Then an unknown placa is 404, checked before ownership, and a cliente who is not the owner gets 403. On success only marca and modelo of that vehicle change. |
| `Server.Shop.DeleteVehiculo` | backend/server.js:230-254 | An unknown placa is 404, checked before ownership, and a cliente who is not the owner gets 403. A vehicle still referred to is 500, under the `NO ACTION` assumption above. Otherwise exactly that vehicle is removed. |
| `Server.Shop.Repuestos` | backend/server.js:257-266 | Every part once, by ascending id. |
| `Server.Shop.PostRepuesto` | backend/server.js:268-291 | 403 for non-administrators, before the body is read. A null id or price, or an empty name, is 400; zero is accepted. A taken id is 409 with the table unchanged. Otherwise exactly the new part is added. |
| `Server.Shop.Reparaciones` | backend/server.js:294-311 | Exactly the line items whose part exists, each joined with the part's name, newest first. |
| `Server.Shop.PostReparacion` | backend/server.js:313-332 | 403 for non-administrators, before the body is read. A missing or zero part id or quantity, or a null labour cost, is 400. An unknown part is 500. Otherwise one line item is added under a fresh id. |
| `Server.Shop.Revisiones` | backend/server.js:335-354 | An administrador sees every revision; anyone else sees exactly the revisions of vehicles it owns. Newest first. |
| `Server.Shop.RevisionById` | backend/server.js:356-373 | The stored revision, or 404 when the id is absent. |
| `Server.Shop.PostRevision` | backend/server.js:375-394 | 403 for non-administrators, before the body is read. A missing field is 400 and an unknown placa is 500. Otherwise one revision is added under a fresh id, in `en_espera` and not yet answered. |
| `Server.Shop.AttachRepuesto` | backend/server.js:396-416 | 403 for non-administrators, before the body is read. A missing or zero line-item id is 400. An unknown revision or line item is 500. Otherwise the pair is appended, duplicates included. |
| `Server.Shop.PutRevision` | backend/server.js:418-440 | No role check. An unknown id is 404. Otherwise exactly estado and respuesta_cliente of that revision are overwritten with the body's values. |
| `Server.Shop.PostInforme` | backend/server.js:442-474 | The call either does both writes or changes nothing. On success it adds exactly one unpaid invoice, and it moves exactly the revisions of that placa in `reparacion` to `entrega`; every other revision, and every respuesta_cliente, is unchanged. On any failure, including an unknown placa, no table changes and the answer is 500. |
| `Server.Shop.Informes` | backend/server.js:476-485 | Every invoice once, newest first, with no role check. |
| `Server.Shop.InformeById` | backend/server.js:487-501 | The stored invoice, or 404 when the id is absent. |
| `Server.Shop.SetInformeStatus` | backend/server.js:503-551 | A state outside {pendiente, pagado} is 400, and so is paying without a signature. Otherwise a null or absent signature is 500. Otherwise state and signature are overwritten together, and an unknown id still answers 200 with no change. |
| `Server.Shop.InformesCliente` | backend/server.js:554-572 | Exactly the invoices whose placa is a vehicle the caller owns, newest first. |
| `Tables.DeliverAll` | backend/server.js:458-461 | The bulk update keeps every key, id and placa, and applies the `reparacion` → `entrega` rule row by row. |
| `Ordering.ByKeyDesc` | backend/server.js:159 | `ORDER BY … DESC`: exactly the given rows, each once, in non-increasing key order. |
| `Formatting.FormatCedula` | screens/RegisterAdminScreen.js:36-43 | The three guarded appends produce the cédula layout of the first nine digits. The same function is in RegisterScreen.js and LoginScreen.js. |
| `Formatting.FormatTelefono` | screens/RegisterAdminScreen.js:45-51 | The two guarded appends produce the phone layout of the first eight digits. The same function is in RegisterScreen.js. |
| `Formatting.CedulaKeepsDigits` | screens/RegisterAdminScreen.js:36-42 | With hyphens removed, the output is exactly the first nine digits of the input; every non-digit is discarded. |
| `Formatting.CedulaHyphens` | screens/LoginScreen.js:31-45 | Hyphens stand exactly at index 1 (more than one digit) and index 6 (more than five). The length is given exactly and is at most 11, the field's `maxLength`. |
| `Formatting.CedulaIdempotent` | screens/RegisterScreen.js:35-42 | Formatting an already formatted cédula returns it unchanged. |
| `Formatting.TelefonoKeepsDigits` | screens/RegisterScreen.js:45-51 | With the hyphen removed, the output is exactly the first eight digits of the input. |
| `Formatting.TelefonoHyphen` | screens/RegisterAdminScreen.js:45-50 | A hyphen stands at index 4 exactly when there are more than four digits, and nowhere else. The length is at most 9, the field's `maxLength`. |
| `Formatting.TelefonoIdempotent` | screens/RegisterAdminScreen.js:45-51 | Formatting an already formatted phone number returns it unchanged. |
| `VehiculosScreen.NormalisePlaca` | screens/VehiculosScreen.js:250-252 | The placa input keeps at most 6 characters, each upper-cased. |
| `VehiculosScreen.SaveOutcome` | screens/VehiculosScreen.js:143-173 | An empty marca or modelo is refused, and an empty placa only when creating. An administrador creating without an owner is refused. These are the only two refusals, so every other form is sent. An edit sends exactly {marca, modelo} to the edited placa. A creation adds placa, and propietario_cedula exactly when the user is an administrador. |
| `VehiculosScreen.CreateAccepted` | screens/VehiculosScreen.js:155-171 | A creation the screen sends passes the server's field check. The server makes the owner the user picked in the form for an administrador, and the caller itself otherwise. |
| `VehiculosScreen.EditAccepted` | screens/VehiculosScreen.js:146-167 | An edit the screen sends passes the server's marca/modelo check and targets the placa being edited. |
| `VehiculosScreen.UntouchedEditKeepsVehiculo` | screens/VehiculosScreen.js:107-117 | Opening a stored vehicle and saving it untouched sends an edit that leaves the vehicle as it was. |
| `VehiculosScreen.VehiculoForm.OpenForNew` | screens/VehiculosScreen.js:98-104 | The form is emptied, not editing. The owner is preset to a cliente's own cédula and to nobody otherwise. |
| `VehiculosScreen.VehiculoForm.OpenForEdit` | screens/VehiculosScreen.js:107-117 | The form copies the vehicle's placa, marca, modelo and owner, in editing mode. |
| `VehiculosScreen.VehiculoForm.TypePlaca` | screens/VehiculosScreen.js:251 | The placa field holds the normalised text. |
| `VehiculosScreen.VehiculoForm.HandleSave` | screens/VehiculosScreen.js:143-173 | Builds `dataToSend` key by key. It sends the request `SaveOutcome` describes, or shows its error and sends nothing. |
| `AdminRevisionScreen.FirstIndex` | screens/AdminCrearRevisionScreen.js:171 | The index of the first row with the id, or -1 when there is none. |
| `AdminRevisionScreen.FindById` | screens/AdminCrearRevisionScreen.js:171 | `find` gives a catalogue row exactly when one has that id, and the row it gives is the first one, at `FirstIndex`. |
| `AdminRevisionScreen.AddRepuesto` | screens/AdminCrearRevisionScreen.js:169-175 | The placeholder is ignored. An id absent from the catalogue, or already selected, leaves the selection unchanged. Otherwise the row `find` gives, the first match, is appended at the end, earlier entries keeping their order. The selection never holds two entries with one id. |
| `AdminRevisionScreen.RemoveRepuesto` | screens/AdminCrearRevisionScreen.js:177-179 | Exactly the entries with that id are removed. |
| `AdminRevisionScreen.RemoveAppend` | screens/AdminCrearRevisionScreen.js:178 | Removal distributes over concatenation, so the kept entries stay in their relative order. |
| `AdminRevisionScreen.RemoveAbsent` | screens/AdminCrearRevisionScreen.js:178 | Removing an id no entry has changes nothing. |
| `AdminRevisionScreen.RemoveUndoesAdd` | screens/AdminCrearRevisionScreen.js:169-179 | Removing an entry just added restores the previous selection. |
| `AdminRevisionScreen.Attachments` | screens/AdminCrearRevisionScreen.js:197-203 | One attachment body per selected entry, in order, carrying its id. |
| `AdminRevisionScreen.Save` | screens/AdminCrearRevisionScreen.js:181-203 | An empty placa, mecánico or detail is refused first, then an empty selection; these are the only refusals. Every other form creates the revision, with a body that passes the server's field check, and sends one attachment per selected entry. |
| `AdminRevisionScreen.AttachmentsCarryIds` | screens/AdminCrearRevisionScreen.js:197-203 | Entries picked from what the server listed carry positive ids, so no attachment is refused for a missing `precio_reparacion_id`. |
| `AdminRevisionScreen.StatusColor` | screens/AdminCrearRevisionScreen.js:23-36 | entrega is green, reparacion orange, en_espera blue and cancelado red; every other state is gray. |
| `AdminRevisionScreen.StatusColorsDistinct` | screens/AdminCrearRevisionScreen.js:23-36 | The four named states have four different colours. |
| `AdminRevisionScreen.FormattedEstado` | screens/AdminCrearRevisionScreen.js:46-52 | `en_espera` is shown as `En espera`; every other state is shown as it is. |
| `InformesScreen.SignatureOk` | screens/ClienteInformesScreen.js:141-154 | No selected invoice or an empty signature leads to an error and no request. Otherwise the body is `pagado` with the signature minus the first occurrence of its header. |
| `InformesScreen.SendsBase64` | screens/ClienteInformesScreen.js:147 | A data-URL signature is sent as exactly the text after the header. |
| `InformesScreen.SendsPlainSignature` | screens/ClienteInformesScreen.js:147 | A signature without the header is sent unchanged. |
| `InformesScreen.PaymentAccepted` | screens/ClienteInformesScreen.js:147-154 | Every payment sent has an accepted state and a signature. The server's required-signature check refuses it exactly when the pad gave nothing but the header. |
| `InformesScreen.ShowPayButton` | screens/ClienteInformesScreen.js:51-55 | The pay button is shown exactly for a `pendiente` invoice, so never for a paid one. |
| `InformesScreen.NewInvoiceOffered` | screens/ClienteInformesScreen.js:51-55 | An invoice the server has just created for an existing vehicle is stored `pendiente`, so it is offered for payment. |
| `InformesScreen.PaidNotOffered` | screens/ClienteInformesScreen.js:141-154 | Paying a stored invoice with a signature the pad drew sends the screen's request to the server, which answers 200. The invoice is then `pagado` with the stripped signature, and the pay button, shown only for `pendiente` (lines 51-55), is gone. |
| `RevisionScreen.ResolveRevisionId` | screens/ClienteRevisionScreen.js:19-33 | `revisionId ?? id`: revisionId wins whenever it is not null or absent. A falsy result means an error and no fetch. |
| `RevisionScreen.FalsyRevisionIdNotReplaced` | screens/ClienteRevisionScreen.js:19-33 | A zero or empty revisionId is not replaced by id; the screen reports a missing id. |
| `RevisionScreen.Decide` | screens/ClienteRevisionScreen.js:54-75 | `continuar` maps to reparacion and `rechazar` to cancelado, both with respuesta_cliente true. `en_espera` only shows a message. Anything else does nothing. |
| `RevisionScreen.ShowDecisionButtons` | screens/ClienteRevisionScreen.js:176 | The decision buttons are shown exactly while the client has not answered. |
| `RevisionScreen.NewRevisionAsksDecision` | screens/ClienteRevisionScreen.js:176 | A revision the server has just created is stored `en_espera` and unanswered, so the client is shown the decision buttons. |
| `RevisionScreen.DecisionHidesButtons` | screens/ClienteRevisionScreen.js:54-75 | The screen's decision, stored by the server's revision update, leaves the revision answered, so the decision buttons (shown while respuesta_cliente is false, line 176) are gone. |
| `RevisionScreen.DecisionThenInvoice` | screens/ClienteRevisionScreen.js:56-59 | The server stores the decision, then an invoice is issued for the vehicle. Afterwards an approved revision is in `entrega` and a rejected one is still `cancelado`, and either is answered. |
| `Registration.RegisterRequest` | screens/RegisterScreen.js:54-73 | An empty field means no request. Otherwise the body carries the five fields and the screen's role. |
| `Registration.RequestAccepted` | screens/RegisterAdminScreen.js:53-72 | What either screen sends passes the server's field and role checks, with exactly the screen's role. |
| `Registration.RegisterForm.FormatCedula` | screens/RegisterScreen.js:35-42 | The cédula field holds the formatted text. |
| `Registration.RegisterForm.FormatTelefono` | screens/RegisterScreen.js:45-51 | The phone field holds the formatted text. |
| `Registration.RegisterForm.HandleRegister` | screens/RegisterAdminScreen.js:53-97 | An empty field shows an error and sends nothing. A success clears all five fields. A failure keeps the fields and shows the server's error or the fallback text. |
| `LoginScreen.LoginRequest` | screens/LoginScreen.js:47-60 | An empty cédula or password means no request; otherwise the body has both. |
| `LoginScreen.RequestAccepted` | screens/LoginScreen.js:48-60 | What the screen sends passes the server's field check. |
| `LoginScreen.LoginForm.FormatCedula` | screens/LoginScreen.js:31-44 | The cédula field holds the formatted text. |
| `LoginScreen.LoginForm.HandleLogin` | screens/LoginScreen.js:47-72 | An empty field shows an error and sends nothing; a failure shows the server's error or the fallback text. |
| `Client.ErrorText` | screens/LoginScreen.js:66 | `error \|\| fallback`: a failed request with a non-empty error text shows exactly that text; in every other case the fallback is shown. |

## Left out

- Server.Shop.PostReparacion, Server.Shop.PostRevision and Server.Shop.PostInforme: the id consumed by a failed insert rests on PostgreSQL's sequence behaviour, not on the documented data model.

- Server.Shop.DeleteVehiculo: the 500 for a vehicle still referred to rests on the assumed `NO ACTION` rule of the references to a vehicle; with a cascading rule the dependent rows would go with it. The documented data model does not say.
- Server.Shop.PostInforme: the 500 for a missing placa rests on an assumed `NOT NULL` on the invoice's placa; a foreign-key check alone lets a null through.

- Real cryptography: bcrypt hashing and comparison, JWT signing, verification and the 8-hour expiry. They are abstract functions in `Auth.Config`.
- The base64 decode into a `Buffer`: an invoice stores the signature text it was sent.
- PostgreSQL failures other than key conflicts, missing foreign-key targets and the transaction faults of `POST /api/informes`. The 500 answer every other error would give is not modelled.
- A failing `pool.connect()` in `POST /api/informes`, which the handler does not catch, is not modelled.
- `parseInt` of a path id that is not a number: path ids are integers here.
- A `PUT /api/revision/:id` body with missing fields, which would write nulls: the model's body always has both fields.
- The revision-detail view and the computed `total` columns, which are defined in the database.
- Decimal prices: prices and labour costs are integers.
- The order of `GET /api/usuarios`, which depends on the database's text collation: `Server.Shop.Usuarios` returns a set.
- Server.Shop.Vehiculos: rows with equal dates may come in any order, as in SQL. The same holds for `Revisiones`, `Reparaciones`, `Informes` and `InformesCliente`.
- Non-ASCII upper-casing in `VehiculosScreen.NormalisePlaca`: only a–z are mapped.
- Concurrency: the parallel attachment requests of the revision screen, and transaction isolation against concurrent writers. Each request is one atomic step.
- The screens' rendering, navigation, timers, and the messages shown after a response arrives. The exceptions are the registration and login forms, which take the response as a parameter.
- The date-window filters of the revision and invoice screens, which rest on JavaScript `Date` arithmetic in local time.
- The session storage and request interceptor of `context/AuthContext.js`.
- The admin revision screen's picker sends `r.id.toString()` and parses it back with `parseInt`. That round trip is taken as the identity, so `AddRepuesto` receives the integer id, with None for the placeholder.
