# HelpWay decision rules in Dafny

HelpWay is a React Native client for charity campaigns. Organisers publish campaigns that accept money (by PIX), food or goods. Donors find campaigns by text, type and distance, follow them on a map and keep a history of their donations.

This project models the rules those screens apply:

- the campaign search: an availability pre-filter, type tags derived from flags, a text/type/radius filter, radius tiers and the slider ceiling;
- the donation-history filter: a name match and an inclusive day range;
- progress and certificate arithmetic;
- the in-memory campaign list;
- the create, edit, sign-up, account and sign-in forms, with their guard chains and request bodies;
- the session state;
- the map's distance list and route toggle;
- the date field's display format.

Pure `map`/`filter` pipelines and expressions are functions, with lemmas about them. React state that a handler changes step by step is a class whose methods `modify` its fields. API calls, the image picker, the location service, `new Date`, `toFixed`, `parseFloat`, `Number()` and the haversine formula are all foreign. Each one is passed in as a value or a function parameter.

Shared modules:

- `Wrappers`: `Option` and `Result`.
- `Text`: ASCII lower-casing, `includes`, one-character `split`, JavaScript's `<=` on strings.
- `Seqs`: `filter`, subsequence, toggle, maximum, sort.
- `Dates`: a parsed `Date` seen through `toISOString` and `toLocaleDateString('pt-BR')`.
- `Campaigns`: the campaign record and the flags/tags vocabularies.
- `Alerts`: dialog values.

Where the code and the written design disagree, the model follows the code:

- **Search without a location.** The design says campaigns without a usable distance stay in the search list. In the code they do not. With no user location, or a campaign at latitude exactly 0, the distance is `Infinity`, which fails `<= distanceFilter`. So with no user location the search list is empty (`SearchDonation.NoLocationShowsNothing`).
- **Card percentage.** The design says the card's percentage is truncated. The code calls `Math.round`, so 0.9 % shows as 1 (`DonationCard.NinetyHundredthsShowsOne`).
- **Partial session.** The design describes the session as both fields set or both null. `setUser` alone, as the Google sign-in path uses it, leaves a user without a stored password (`AuthContext.GoogleSession`).

Other behaviour the code has, stated in the contracts:

- **Account date crash.** On the account screen, an unparseable birth date throws before the `try`, so `isLoading` stays true (`AlterarDados.AlterarDadosViewModel.HandleSalvar`).
- **Stale stored password.** A password change on the account screen does not update the stored `passwordAuth`.
- **Check order.** Sign-up checks password mismatch before length. The account screen checks length before mismatch.
- **Dead fallback.** The sign-in screen's 'Erro desconhecido' fallback can never show, because the session always supplies a message.
- **Goods tag mismatch.** The create form's 'Utensílios/Vestimenta' tag is not the 'Utensílio' tag the campaign-list context's `addDonation` reads. The mismatch is latent: the create screen builds its own flags and calls the API directly, and no screen calls `addDonation`.

## Model

| member | source | states |
|---|---|---|
| Text.Lower | src/screens/SearchDonation.tsx:145-148 | `toLowerCase` keeps the length and maps each character by the ASCII lower-case table |
| Text.LowerIdempotent | src/screens/HistoricoDoacao.tsx:93 | lower-casing twice is lower-casing once |
| Text.Includes | src/screens/SearchDonation.tsx:147-148 | `includes` is true exactly when the needle occurs at some position |
| Text.IncludesEmpty | src/screens/SearchDonation.tsx:145-148 | every string includes the empty string |
| Text.Split | src/components/InputDate.tsx:28 | `split` on a character gives at least one separator-free field, and joining the fields gives the input back |
| Text.SplitJoin | src/components/InputDate.tsx:28 | splitting a join of separator-free fields gives the fields back |
| Text.FirstField | src/screens/HistoricoDoacao.tsx:46 | `split(sep)[0]` is a separator-free prefix followed by the separator or the end |
| Text.FirstFieldPrefix | src/screens/HistoricoDoacao.tsx:46 | the first field of `a + sep + rest` is `a` when `a` has no separator |
| Text.LexLeTransitive | src/screens/HistoricoDoacao.tsx:103-104 | string `<=` is transitive |
| Text.LexLeTotal | src/screens/HistoricoDoacao.tsx:103-104 | any two strings are ordered one way or the other |
| Text.LexLeAntisymmetric | src/screens/HistoricoDoacao.tsx:103-104 | two strings each `<=` the other are equal |
| Seqs.Filter | src/screens/SearchDonation.tsx:74-76 | `filter` keeps exactly the elements that pass, as an order-preserving subsequence |
| Seqs.Toggle | src/screens/SearchDonation.tsx:251-256 | the toggle flips membership of one value, appends a new value at the end and leaves every other value's membership as it was |
| Seqs.ToggleTwiceRestores | src/screens/AddDonation.tsx:54-58 | toggling a value that was absent and then toggling it again restores the list |
| Seqs.ToggleKeepsNoDuplicates | src/screens/EditarDoacao.tsx:57-61 | a toggled list without duplicates stays without duplicates |
| Seqs.MaxOf | src/screens/SearchDonation.tsx:108 | `Math.max` of a non-empty list is an element and bounds every element |
| Seqs.SortBy | src/screens/Map.tsx:116 | the sort returns a permutation in ascending key order, and it is stable: the elements sharing any one key keep their input order, as `Array.prototype.sort` must |
| Seqs.InsertKeepsTies | src/screens/Map.tsx:116 | inserting into a sorted list puts the new element ahead of those with its key and leaves every other key's elements in place and in order |
| Campaigns.TagsOfSpec | src/screens/SearchDonation.tsx:127-131 | the derived tags are exactly the labels of the true flags, in the order money, food, goods |
| Campaigns.FlagsTagsRoundTrip | src/screens/EditarDoacao.tsx:43-47 | flags to tags to flags is the identity for distinct labels |
| Campaigns.VocabulariesDisagreeOnGoods | src/context/DonationsContext.tsx:82-84 | form tags read with the search/context labels lose the goods flag and keep the other two |
| Dates.IsoDay | src/screens/HistoricoDoacao.tsx:46 | the ISO day is the non-empty part of the ISO string before its first 'T' (all of it when there is none) |
| SearchDonation.ActiveCampaigns | src/screens/SearchDonation.tsx:74-76 | a fetched campaign stays exactly when its goal (null or 0 as 0) exceeds its raised amount (null or 0 as 0), in order |
| SearchDonation.FundedCampaignsDropped | src/screens/SearchDonation.tsx:74-76 | a campaign whose raised amount (null or 0 as 0) reaches its goal (null or 0 as 0) is dropped, so fully funded campaigns and zero- or missing-goal campaigns with a non-negative raised amount never show |
| SearchDonation.Cards | src/screens/SearchDonation.tsx:125-143 | the card list has one card per campaign, in order |
| SearchDonation.CardTypesFollowFlags | src/screens/SearchDonation.tsx:127-131 | a card's tags are its true flags labelled 'Dinheiro', 'Alimentação', 'Utensílio', in that order |
| SearchDonation.EmptySearchMatchesAll | src/screens/SearchDonation.tsx:145-148 | an empty query matches every card |
| SearchDonation.CampaignDistance | src/screens/SearchDonation.tsx:150-158 | with a known user location and no campaign location the code throws; with no user location or latitude 0 the distance is Infinity; otherwise it is the haversine distance |
| SearchDonation.FilterCards | src/screens/SearchDonation.tsx:144-167 | the filter throws exactly when some card lacks a location while the user location is known; otherwise it keeps the cards passing text AND distance AND type, in order |
| SearchDonation.FilteredCampaigns | src/screens/SearchDonation.tsx:124-168 | the same for the whole pipeline over the availability-filtered campaigns |
| SearchDonation.NoLocationShowsNothing | src/screens/SearchDonation.tsx:150-160 | with no user location the result is empty |
| SearchDonation.NoLocationKeepsNoCard | src/screens/SearchDonation.tsx:150-160 | with no user location no card passes the radius test |
| SearchDonation.ZeroLatitudeNeverShown | src/screens/SearchDonation.tsx:151 | a campaign at latitude 0 is never shown |
| SearchDonation.OnlyRadiusWhenUnfiltered | src/screens/SearchDonation.tsx:160-166 | with no query and no type selected, a located campaign is shown exactly when its distance is within the radius |
| SearchDonation.Ceil | src/screens/SearchDonation.tsx:109 | `Math.ceil` is the least integer not below its argument |
| SearchDonation.QualifyingDistances | src/screens/SearchDonation.tsx:103-105 | every campaign with a location off latitude 0 contributes its distance, every entry is such a campaign's distance, and the list is empty exactly when there is no such campaign |
| SearchDonation.SliderCeiling | src/screens/SearchDonation.tsx:108-110 | the ceiling is at least 50 and at least every distance; it is 50 exactly when no distance is positive; otherwise it is a multiple of 100 less than 100 above the furthest distance |
| SearchDonation.CeilingReachesEveryLocatedCampaign | src/screens/SearchDonation.tsx:101-115 | at the ceiling radius, with no query and no type, every campaign off latitude 0 is shown |
| SearchDonation.SearchFilters.constructor | src/screens/SearchDonation.tsx:45-51 | MUNDIAL tier, radius and slider maximum 5000, no types selected |
| SearchDonation.SearchFilters.HandleFilterChange | src/screens/SearchDonation.tsx:117-122 | REGIONAL sets the radius to 50, NACIONAL to 2000, MUNDIAL to the slider maximum |
| SearchDonation.SearchFilters.SetDistanceFilter | src/screens/SearchDonation.tsx:237 | the slider sets the radius |
| SearchDonation.SearchFilters.ToggleType | src/screens/SearchDonation.tsx:251-256 | a type button flips that type's membership only |
| SearchDonation.SearchFilters.AdjustSliderMaximum | src/screens/SearchDonation.tsx:101-115 | with campaigns, a user location and a qualifying campaign, slider maximum and radius both move to the ceiling, which bounds every qualifying distance; otherwise both are unchanged |
| HistoricoDoacao.FormatarDataSegura | src/screens/HistoricoDoacao.tsx:35-40 | 'Data Indefinida' for a missing date, 'Data Inválida' for an unparseable one, else the pt-BR date |
| HistoricoDoacao.FormatarDataISO | src/screens/HistoricoDoacao.tsx:42-47 | '' exactly for a missing or unparseable date, else the ISO day |
| HistoricoDoacao.DateHelpersAgree | src/screens/HistoricoDoacao.tsx:35-47 | the ISO helper gives '' exactly when the display helper gives a placeholder |
| HistoricoDoacao.HistoricoFiltrado | src/screens/HistoricoDoacao.tsx:92-116 | a non-array history gives []; otherwise an order-preserving subsequence holding exactly the dated records inside both inclusive bounds whose name matches |
| HistoricoDoacao.UndatedRecordDropped | src/screens/HistoricoDoacao.tsx:100-101 | a record without a usable date is dropped even with no bounds set |
| HistoricoDoacao.NoFiltersKeepsDatedRecords | src/screens/HistoricoDoacao.tsx:99-115 | with no name and no bounds exactly the dated records stay |
| HistoricoDoacao.InvertedRangeIsEmpty | src/screens/HistoricoDoacao.tsx:103-104 | a lower bound after the upper bound leaves nothing |
| HistoricoDoacao.NomeMatchIgnoresQueryCase | src/screens/HistoricoDoacao.tsx:93 | the name match is the same for a query and its lower-cased form |
| HistoricoDoacao.NomeMatchExample | src/screens/HistoricoDoacao.tsx:106-112 | the query 'ana' finds a received donation from 'Ana Silva' |
| DonationCard.PercentageValue | src/components/DonationCard.tsx:17-24 | 0 without dividing when the goal is not positive; otherwise raised / goal scaled to 100 |
| DonationCard.Percentage | src/components/DonationCard.tsx:27 | never above 100, and equal to the raw value unless that exceeds 100 |
| DonationCard.Round | src/components/DonationCard.tsx:28 | `Math.round` is the nearest integer, halves rounding up |
| DonationCard.RoundMonotone | src/components/DonationCard.tsx:28 | rounding is monotone |
| DonationCard.NoGoalShowsZero | src/components/DonationCard.tsx:17-24 | a missing, zero or negative goal shows 0 |
| DonationCard.NeverAboveHundred | src/components/DonationCard.tsx:27-28 | the shown value never exceeds 100 |
| DonationCard.FundedShowsHundred | src/components/DonationCard.tsx:22-28 | raised at or above a positive goal shows exactly 100 |
| DonationCard.NonNegativeInRange | src/components/DonationCard.tsx:27-28 | non-negative inputs show a value in [0, 100] |
| DonationCard.MonotoneInRaised | src/components/DonationCard.tsx:23-28 | more raised towards the same goal never shows less |
| DonationCard.HalfPercentShowsOne | src/components/DonationCard.tsx:28 | 0.5 % shows as 1 |
| DonationCard.NinetyHundredthsShowsOne | src/components/DonationCard.tsx:28 | 0.9 % shows as 1, not 0 |
| DonationDetail.Meta | src/screens/DonationDetail.tsx:60 | a missing or zero goal reads as 1, any other goal as itself, so the divisor is never 0 |
| DonationDetail.Progress | src/screens/DonationDetail.tsx:60-62 | for a positive goal progress times goal is the raised amount (null as 0); for a negative goal it is 0 |
| DonationDetail.NoGoalProgressIsRaised | src/screens/DonationDetail.tsx:60-62 | with a missing or zero goal the progress is the raised amount |
| DonationDetail.FullIffFunded | src/screens/DonationDetail.tsx:62 | for a positive goal progress reaches 1 exactly when the goal is reached |
| DonationDetail.ProgressNotClamped | src/screens/DonationDetail.tsx:62 | 150 towards 100 gives 1.5 |
| DonationDetail.NegativeGoalNoProgress | src/screens/DonationDetail.tsx:60-62 | a negative goal gives 0 |
| CertificadoDoacao.HorasCertificadas | src/screens/CertificadoDoacao.tsx:14-20 | hours times 20 is at most the donated value (null or 0 as 0) and one more hour would exceed it |
| CertificadoDoacao.NoValueNoHours | src/screens/CertificadoDoacao.tsx:19-20 | a missing or zero value certifies 0 hours |
| CertificadoDoacao.NonNegativeHours | src/screens/CertificadoDoacao.tsx:20 | a non-negative value certifies non-negative hours |
| CertificadoDoacao.HorasMonotone | src/screens/CertificadoDoacao.tsx:20 | donating more never certifies fewer hours |
| CertificadoDoacao.NomeOu | src/screens/CertificadoDoacao.tsx:41 | a missing or empty donor name gives the fallback, otherwise the name |
| CertificadoDoacao.AnonymousNamesDiffer | src/screens/CertificadoDoacao.tsx:96 | the PDF ('Anônimo') and the screen ('Doador Anônimo') agree exactly when a donor name is present |
| DonationsContext.Credit | src/context/DonationsContext.tsx:120-128 | `updateDonation` keeps the length and credits exactly the entries with the id |
| DonationsContext.CreditOnlyTouchesTarget | src/context/DonationsContext.tsx:122-125 | other entries are unchanged; entries with the id gain the amount (null as 0) and keep every other field |
| DonationsContext.CreditAbsentIsIdentity | src/context/DonationsContext.tsx:121-127 | an absent id leaves the list unchanged |
| DonationsContext.CreditTwiceAdds | src/context/DonationsContext.tsx:124 | two credits to one id add up |
| DonationsContext.CreditTotal | src/context/DonationsContext.tsx:121-127 | the list's total raised grows by the amount once per entry with the id |
| DonationsContext.BuildPayload | src/context/DonationsContext.tsx:75-91 | the body fails exactly without a location; otherwise raised is 0, each flag is set exactly when its 'Dinheiro'/'Alimentação'/'Utensílio' tag is present, and title, subtitle, description, image, goal, PIX key, organiser and location are copied |
| DonationsContext.FormClothingTagLost | src/context/DonationsContext.tsx:84 | the create form's clothing tag does not set the clothing flag here |
| DonationsContext.DonationsStore.constructor | src/context/DonationsContext.tsx:36-71 | the list starts with the two seed campaigns |
| DonationsContext.DonationsStore.UpdateDonation | src/context/DonationsContext.tsx:120-128 | the list becomes the credited list and its total grows accordingly |
| DonationsContext.DonationsStore.AddDonation | src/context/DonationsContext.tsx:73-118 | on success the returned campaign is appended and the old prefix is untouched; on a missing location or an API error the list is unchanged and the error is returned |
| AddDonation.CampaignDataOf | src/screens/AddDonation.tsx:95-107 | the PIX key is sent exactly when 'Dinheiro' is selected; each flag follows its form tag; title, description, organiser, location and image (or '') are copied, and the goal is `Number(need)` |
| AddDonation.HandleSubmit | src/screens/AddDonation.tsx:78-107 | no user is refused first, then missing fields, then money without a PIX key; otherwise the body is sent |
| AddDonation.SubmittedMoneyCampaignHasKey | src/screens/AddDonation.tsx:85-101 | a submitted money campaign has a non-empty key, and a submission with form tags accepts some kind of donation |
| Alerts.ResultAlert | src/screens/AddDonation.tsx:109-116 | a successful request shows the success dialog and nothing else does; a rejection shows 'Erro' with the error's own message, or the screen's fallback when that is empty (the same rule closes src/screens/EditarDoacao.tsx:96-102) |
| AddDonation.AddDonationScreen.ToggleType | src/screens/AddDonation.tsx:54-58 | flips membership of the given type and leaves the others |
| EditarDoacao.Payload | src/screens/EditarDoacao.tsx:83-94 | the body has exactly the six base keys plus 'imagem_base64' when a new image was picked, never the amounts, and flags that follow the tipos |
| EditarDoacao.LoadSaveRoundTrip | src/screens/EditarDoacao.tsx:43-47 | loading flags as tipos and saving them writes the same flags back |
| EditarDoacao.TiposAtuais | src/screens/EditarDoacao.tsx:43-47 | the pushed tipos are the form labels of the true flags, in order |
| EditarDoacao.EditarDoacaoScreen.Load | src/screens/EditarDoacao.tsx:31-55 | a fetched campaign fills the form; a failure shows an alert and keeps the fields; loading ends either way |
| EditarDoacao.EditarDoacaoScreen.AlternarTipo | src/screens/EditarDoacao.tsx:57-61 | flips membership of exactly one type |
| EditarDoacao.EditarDoacaoScreen.BuildUpdate | src/screens/EditarDoacao.tsx:76-94 | refused exactly when titulo, responsavel, descricao or tipos is empty; otherwise the built body is the payload |
| Register.ValidarEmailIsPattern | src/screens/Register/useRegisterViewModel.ts:38-41 | `validarEmail` accepts exactly the strings matching `^[^\s@]+@[^\s@]+\.[^\s@]+$` |
| Register.ValidarEmailAccepts | src/screens/Register/useRegisterViewModel.ts:39 | any `a@b.c` of non-empty whitespace- and '@'-free parts is accepted |
| Register.NoAtRejected | src/screens/Register/useRegisterViewModel.ts:39 | a string without '@' is refused |
| Register.SenhaErro | src/screens/Register/useRegisterViewModel.ts:70-78 | no error exactly when the passwords agree and have at least 6 characters; a mismatch is reported before the length |
| Register.TpUsuario | src/screens/Register/useRegisterViewModel.ts:92 | 1 exactly for a donor, otherwise 2 |
| Register.CadastroValidoIff | src/screens/Register/useRegisterViewModel.ts:62-83 | the form is valid exactly when the e-mail matches, the passwords agree with at least 6 characters and name and birth date are filled |
| Register.RegisterViewModel.HandleCadastro | src/screens/Register/useRegisterViewModel.ts:62-112 | the field errors, the missing-fields alert, the body sent, the 'Erro' alert for an invalid date or a refused sign-up, and the outcomes of the sign-in request |
| Register.CatchAlert | src/screens/Register/useRegisterViewModel.ts:106-110 | the catch shows 'Erro' with the error's own message, or the fallback when that is empty |
| AlterarDados.Guard | src/screens/AlterarDados/useAlterarDadosViewModel.ts:76-102 | in change mode a missing current password, then a new password under 6 characters, then an unconfirmed one each fail with their own error, and otherwise the current password is used; outside change mode the stored password is used, or the session is invalid; the secret is never empty |
| AlterarDados.CheckOrderDiffersFromRegister | src/screens/AlterarDados/useAlterarDadosViewModel.ts:83-92 | a short, unconfirmed new password is reported as too short here and as a mismatch at sign-up |
| AlterarDados.Payload | src/screens/AlterarDados/useAlterarDadosViewModel.ts:105-118 | always the five base keys, plus 'img_usuario' only with a new image and 'nova_senha' only in change mode with a new password; name, e-mail, image and new password are copied from the form, the current secret goes in 'senha_atual', the ISO date in 'dt_nascimento' and the user type code in 'tp_usuario' |
| AlterarDados.NovaSenhaIffChangeMode | src/screens/AlterarDados/useAlterarDadosViewModel.ts:83-118 | once the guard passes, the body carries a new password exactly in change mode |
| AlterarDados.UpdatedUser | src/screens/AlterarDados/useAlterarDadosViewModel.ts:123-130 | id and password kept, edited fields overridden, the picture kept unless one was picked |
| AlterarDados.AlterarDadosViewModel.BuildPayload | src/screens/AlterarDados/useAlterarDadosViewModel.ts:105-118 | the body built field by field is the payload |
| AlterarDados.AlterarDadosViewModel.HandleSalvar | src/screens/AlterarDados/useAlterarDadosViewModel.ts:72-141 | without a user nothing changes; each refusal resets loading, with its message; an invalid date leaves loading on; a success replaces the session user; the stored password never changes |
| AuthContext.FailureMessage | src/context/AuthContext.tsx:54 | the failure message is never empty and is the error's own when it has one |
| AuthContext.AuthSession.constructor | src/context/AuthContext.tsx:28-29 | both fields start null |
| AuthContext.AuthSession.Logout | src/context/AuthContext.tsx:31-34 | both fields become null |
| AuthContext.AuthSession.Login | src/context/AuthContext.tsx:39-56 | success stores the user and the password; failure changes nothing and returns the message or the default |
| AuthContext.AuthSession.SetUser | src/context/AuthContext.tsx:59 | only the user changes |
| AuthContext.GoogleSession | src/screens/login/useLoginViewModel.ts:59-60 | `setUser` on a fresh session gives a user with no stored password |
| Login.UnknownErrorUnreachable | src/screens/login/useLoginViewModel.ts:45 | the error shown after a failed sign-in is the session's message, never the fallback |
| Login.LoginViewModel.ValidarLogin | src/screens/login/useLoginViewModel.ts:30-47 | empty fields set 'Preencha todos os campos.' without signing in; otherwise loading ends false, and a success clears the error, shows 'Login realizado com sucesso!' and moves on, while a failure sets the error to the message |
| Login.LoginViewModel.HandleSendRecovery | src/screens/login/useLoginViewModel.ts:93-101 | an address without '@' changes nothing; otherwise the modal closes and the field is cleared |
| MapScreen.WithLocation | src/screens/Map.tsx:83 | exactly the campaigns with a location are kept, in order, latitude 0 included |
| MapScreen.Formatted | src/screens/Map.tsx:83-93 | one pin per located campaign, in order, with its id, title and coordinates |
| MapScreen.EveryLocatedCampaignPinned | src/screens/Map.tsx:83-93 | every located campaign gets a pin |
| MapScreen.AnnotateAll | src/screens/Map.tsx:108-115 | each pin gets its own distance label |
| MapScreen.WithDistancesSpec | src/screens/Map.tsx:106-116 | the distance list is a permutation of the annotated pins, sorted ascending by parsed label, each label '<2 decimals> km' of its own distance; pins with the same parsed label keep their fetched order |
| MapScreen.WithDistancesComeFromPins | src/screens/Map.tsx:108-116 | each listed entry is an input pin with its label added |
| MapScreen.RouteCoords | src/screens/Map.tsx:134-136 | the route keeps every point, swapping `[lng, lat]` into latitude and longitude |
| MapScreen.RouteCoordsRoundTrip | src/screens/Map.tsx:134-136 | swapping back gives the service's line |
| MapScreen.MapState.LoadCampaigns | src/screens/Map.tsx:76-104 | outside selection mode a fetched list becomes the pins and a failure alerts |
| MapScreen.MapState.RefreshDistances | src/screens/Map.tsx:106-118 | recomputed only with a location and pins, otherwise unchanged |
| MapScreen.MapState.HandleDrawRoute | src/screens/Map.tsx:120-149 | nothing without a location; the active campaign's tap clears the route; otherwise the first route is shown or an alert raised |
| InputDate.FormatDateForDisplay | src/components/InputDate.tsx:26-30 | '' exactly for '', and otherwise a text with '/' |
| InputDate.YmdToDmy | src/components/InputDate.tsx:28-29 | 'Y-M-D' is shown as 'D/M/Y' with the parts verbatim |
| InputDate.NoDashShowsUndefined | src/components/InputDate.tsx:28-29 | a value without '-' shows 'undefined' for day and month |
| InputDate.PlaceholderIffEmpty | src/components/InputDate.tsx:32 | the placeholder shows exactly when the value is empty |
| InputDate.DatePickerState.OnChangeDate | src/components/InputDate.tsx:17-24 | the picker stays open only on iOS; a picked date is emitted as its ISO day, none otherwise |
| InputDate.PickedDateShown | src/components/InputDate.tsx:20-29 | a picked date is stored as its ISO day and shown back as 'D/M/Y' |

## Left out

- The haversine formula (src/screens/SearchDonation.tsx:91-99, src/screens/Map.tsx:25-38) is a function parameter. It works on floating point, so its exact values and its symmetry are not stated.
- `new Date`, `toISOString`, `toLocaleDateString`, `toFixed(2)`, `parseFloat`, `Number()` and `Image.resolveAssetSource` are foreign. They are parameters, and `None` stands for an invalid date or NaN. The message of the RangeError an invalid date throws is engine wording, so it is a parameter of `Register.RegisterViewModel.HandleCadastro`.
- Text.Lower: lower-cases ASCII only, where `toLowerCase` follows Unicode case mapping.
- Text.LexLe: compares code points, where JavaScript compares UTF-16 units; the two differ only outside the Basic Multilingual Plane. String lengths are likewise counted in code points.
- Floating point: NaN, Infinity as an input, and rounding are not modelled. Amounts are exact reals. The card's NaN-shows-0 rule has no counterpart, because no NaN arises from real inputs.
- DonationsContext.RaisedPlus: reads a null amount as 0, as JavaScript's `null + amount` does. An `undefined` amount (which gives NaN) is not distinguished from null.
- SearchDonation.CampaignDistance: an exception thrown inside the `useMemo` is a `Failure`. What React does with it afterwards is not modelled.
- The TypeError thrown by reading a missing location (in the search filter and in `addDonation`) is the marker `Campaigns.MissingLocationError`. Its message is engine wording and is not modelled.
- `parseFloat` of a distance label is a real-valued parameter. A NaN label, which would make the sort's comparator inconsistent, is not modelled.
- EditarDoacao.EditarDoacaoScreen.Load: a missing subtitle becomes '' rather than `undefined`. Both fail the required-field guard the same way.
- AlterarDados.AlterarDadosViewModel.constructor: takes the form as given. The initial values derived from the session user (src/screens/AlterarDados/useAlterarDadosViewModel.ts:24-35) are not modelled.
- Network and platform calls are response values or parameters, not behaviour. This covers the API client (src/services/api.ts), the routing service fetch, location permission, the image picker, PDF printing and sharing, and the Google OAuth exchange (src/screens/login/useLoginViewModel.ts:49-87).
- Navigation, layout, styling and the screens without decision logic are not part of this model. These are Conta, MinhasDoacoes, DonationPix, the three view files, the navigator, Button and App.
- Re-render timing, effect scheduling and double taps are not modelled. The intermediate `isLoading = true` while a request is pending is not observable in these contracts.
