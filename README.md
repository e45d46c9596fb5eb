# Portfolio site lead pipeline and page logic, modelled in Dafny

This project models the logic in a personal portfolio website. The rest of the site is markup.

- **Lead-form API route**: refreshes an OAuth access token, maps the submitted lead onto the CRM's contact schema, and answers 200, 405 or 500.
- **Error-mail route**: mails a failed submission to the site owner.
- **Contact form**: stores its state, toggles the project-type multi-select, and submits the form.
- **Projects page**: a case-insensitive search filter.
- **Button component**: chooses between a plain button, an internal link and an external anchor.
- **Home page**: its static props, which are the four newest posts and every project, cut down to the fields the page shows.

Modules, one per source file plus shared helpers:

- `Wrappers`, `Json`, `Sequences`, `Http`: optional values and results, JSON values with JavaScript's property lookup and `JSON.stringify`'s dropping of `undefined` properties, subsequences, request and response records.
- `LeadForm` (`pages/api/leadform.ts`), `SendEmail` (`pages/api/send-email.ts`), `ContactForm` (`components/ContactForm.tsx`), `ProjectSearch` (`pages/project/index.tsx`), `Button` (`components/button.tsx`), `Content` and `Home` (`pages/index.tsx`).
- `Pipeline`: what the form sends is what the route forwards to the CRM.

Outside effects are inputs. The two axios calls, `fetch` and the mail send each become a value that says how the call ended. The environment variables are a record. Each API handler is a method that returns the response. The lead-form handler also returns the list of outbound calls it made, so "no CRM call after a failed token refresh" is stated on that list. `JSON.stringify` and JavaScript's template-string conversion are function parameters. The contact form is a class whose fields are the six `useState` slots.

Facts about the code that the model keeps:

- `EMAIL_PORT` has no default. The value from the environment goes to the mail library unchanged.
- The 500 answer carries only the upstream response body, never its status.
- The contact form does no phone validation, has no submission state machine, no redirect and no notifier call.
- A token-refresh failure reaches the client as the wrapped error message. It never carries the raw upstream body.

## Model

| member | source | states |
|---|---|---|
| `LeadForm.AuthDomain` | pages/api/leadform.ts:8 | the auth domain is `ZOHO_AUTH_DOMAIN` when set and non-empty, else `https://accounts.zoho.in` |
| `LeadForm.RefreshCall` | pages/api/leadform.ts:9-25 | the refresh URL is the auth domain followed by `/oauth/v2/token`; the four query parameters are the refresh token, client id and client secret from the environment and `grant_type=refresh_token` |
| `LeadForm.GetAccessToken` | pages/api/leadform.ts:17-36 | succeeds exactly when the reply has a non-empty `access_token` and `api_domain`, returning both; every failure message starts with `Failed to refresh token: ` followed by the missing-fields message, the serialised upstream body, or the transport's message |
| `LeadForm.ContactData` | pages/api/leadform.ts:55-64 | the payload is an object whose only member is a one-element `data` list holding the contact |
| `LeadForm.ContactFieldsCopied` | pages/api/leadform.ts:44-64 | First_Name, Last_Name, Email, Mobile, Project and Description hold firstName, lastName, email, phoneNumber, projectTypes and projectDetails unchanged (absent stays absent), and the contact has no other field |
| `LeadForm.CrmCall` | pages/api/leadform.ts:52-73 | the CRM URL is the API domain followed by `/bigin/v2/Contacts`, the Authorization header is `Zoho-oauthtoken ` plus the access token, the content type is JSON, there are no other headers, redirects are not followed, and the payload is the contact data |
| `LeadForm.Submitted` | pages/api/leadform.ts:76 | success answers 200 with exactly two members: message `Form submitted successfully`, then `data` equal to the CRM's body |
| `LeadForm.CatchBlock` | pages/api/leadform.ts:77-83 | the corrected catch block: every failure answers 500 with exactly two members, message `Error submitting form`, then `error` equal to the upstream body when the failed call got an answer, else the error message |
| `LeadForm.CatchBlockAsWritten` | pages/api/leadform.ts:77-83 | the catch block as written throws, instead of answering, exactly when the failed call got an answer without a content-type header; otherwise it gives the corrected catch block's 500 |
| `LeadForm.CatchBlockAsWrittenCrashes` | pages/api/leadform.ts:79 | a failure whose answer has no content-type header makes the catch block as written throw instead of answering |
| `LeadForm.Handle` | pages/api/leadform.ts:39-84 | non-POST answers 405 `Method Not Allowed` and makes no call; POST always makes the token call first; the CRM call is made exactly when the token refresh succeeds; the status is 200 exactly when both calls succeed; a token failure answers 500 with the wrapped message; a CRM failure answers through the corrected catch block (the source's own catch block can throw instead, see Findings), so the status is always 200, 405 or 500 |
| `SendEmail.CreateTransport` | pages/api/send-email.ts:11-19 | the transport takes host, port, user and password from the environment unchanged and is not secure at connect |
| `SendEmail.MailText` | pages/api/send-email.ts:26 | the body is `Error: `, then the error text, then a blank line and `Contact Details:`, then the serialised form data, each at a known position |
| `SendEmail.MailOptions` | pages/api/send-email.ts:21-27 | the mail is from `EMAIL_USER` to `contact@rishimehra.in` with subject `Error Submitting Contact Form` |
| `SendEmail.Handle` | pages/api/send-email.ts:4-36 | non-POST answers 405 and creates no transport and sends no mail; POST creates the transport and hands it the composed mail; a completed send answers 200 `Email sent successfully`, a failed one 500 `Error sending email` with no detail |
| `ContactForm.ChoicesCoverVocabulary` | components/ContactForm.tsx:13 | each of the four project types has exactly one checkbox and a label no other type shares |
| `ContactForm.Without` | components/ContactForm.tsx:34 | the filtered list lacks the type, is a subsequence of the input, and keeps every other type with its multiplicity; it is strictly shorter when the type was present |
| `ContactForm.Toggle` | components/ContactForm.tsx:32-38 | after a toggle the type is selected exactly when it was not before, and every other type's selection is unchanged |
| `ContactForm.ToggleAppends` | components/ContactForm.tsx:35-37 | toggling an unselected type appends it at the end and leaves every entry in place |
| `ContactForm.ToggleRemoves` | components/ContactForm.tsx:33-34 | toggling a selected type removes every occurrence, keeps the rest in order with their multiplicities, and shortens the list |
| `ContactForm.WithoutKeepsDistinct` | components/ContactForm.tsx:34 | filtering a duplicate-free list gives a duplicate-free list |
| `ContactForm.ToggleKeepsDistinct` | components/ContactForm.tsx:32-38 | a duplicate-free selection stays duplicate-free after any toggle |
| `ContactForm.WithoutAbsent` | components/ContactForm.tsx:34 | filtering out a type that is not there leaves the list unchanged |
| `ContactForm.WithoutAppended` | components/ContactForm.tsx:34-36 | filtering a just-appended new type out again gives back the list before the append |
| `ContactForm.ToggleTwice` | components/ContactForm.tsx:32-38 | toggling an unselected type twice restores the original selection |
| `ContactForm.FormJson` | components/ContactForm.tsx:47-62 | the serialised form data is an object with six distinct keys, holding the labels of the selected types and the five text values unchanged, the phone field being the stored formatted number |
| `ContactForm.Labels` | components/ContactForm.tsx:47-54 | the submitted project list has one label per selected type, in selection order |
| `ContactForm.Form.constructor` | components/ContactForm.tsx:25-30 | the form starts with no selection and all five text fields empty, and without duplicates |
| `ContactForm.Form.Checked` | components/ContactForm.tsx:87 | a checkbox is checked exactly when its type occurs at some position of the selection |
| `ContactForm.Form.HandleProjectTypeChange` | components/ContactForm.tsx:32-38 | the selection becomes the toggled list, the toggled checkbox flips, the others and all text fields stay as they were, and the selection stays duplicate-free |
| `ContactForm.Form.HandlePhoneNumberChange` | components/ContactForm.tsx:40-42 | the phone field takes the formatted value, not the raw digits, nothing else changes, and the selection stays duplicate-free |
| `ContactForm.Form.EditText` | components/ContactForm.tsx:102-133 | a text input's change replaces that field only, and the selection stays duplicate-free |
| `ContactForm.Form.HandleSubmit` | components/ContactForm.tsx:44-76 | the request is a JSON POST to `/api/leadform` carrying exactly the six current state values; it succeeds exactly when the response is ok and its body parses; a non-ok response ends in the same failed outcome as a rejected fetch; form state is not changed |
| `ProjectSearch.LowerChar` | pages/project/index.tsx:21-22 | an ASCII upper-case letter becomes the lower-case letter 32 code points above it, no upper-case letter remains, and every other character is kept |
| `ProjectSearch.Lower` | pages/project/index.tsx:21-22 | lowering keeps the length and lowers each character |
| `ProjectSearch.LowerIdempotent` | pages/project/index.tsx:21-22 | lowering twice is lowering once |
| `ProjectSearch.SearchText` | pages/project/index.tsx:21 | the searched text is the lowered title, one space, then the lowered description |
| `ProjectSearch.Includes` | pages/project/index.tsx:22 | `includes` holds whenever the needle is a prefix of the text, and only when the needle is no longer than the text |
| `ProjectSearch.IncludesAt` | pages/project/index.tsx:22 | `includes` holds exactly when the needle occurs at some position of the text |
| `ProjectSearch.Filter` | pages/project/index.tsx:20-23 | the result is a subsequence of the projects in their original order, and a project is in it exactly when it is in the input and the lowered search occurs in its lowered title, a space and its lowered description; every matching project keeps all its occurrences and no other project is kept |
| `ProjectSearch.FilterAllMatch` | pages/project/index.tsx:20-23 | a list whose projects all match is returned whole |
| `ProjectSearch.FilterEmptySearch` | pages/project/index.tsx:22 | an empty search keeps every project |
| `ProjectSearch.FilterIgnoresCase` | pages/project/index.tsx:21-22 | searches that differ only in letter case give the same result |
| `ProjectSearch.FilterIdempotent` | pages/project/index.tsx:20-23 | filtering the result again with the same search changes nothing |
| `Button.TypeAttribute` | components/button.tsx:17 | the rendered type is `submit` exactly when the prop is `submit`, and `button` otherwise (for `reset` and for no type) |
| `Button.Render` | components/button.tsx:15-38 | a plain button exactly when there is a click handler or no non-empty href; an internal link around a button exactly when there is no handler and the href starts with `/`; otherwise an external anchor with `target="_blank"` and `rel="noopener noreferrer"`; the href and type are passed on |
| `Button.OnClickWins` | components/button.tsx:15-20 | a click handler wins over any href, and an empty href without a handler still gives a plain button |
| `Home.InsertNewest` | pages/index.tsx:94-98 | one insertion step extends the newest-first prefix by one post, keeps the posts past it, and keeps the same posts |
| `Home.SortNewestFirst` | pages/index.tsx:94-98 | sorting in place leaves the posts in non-increasing `publishedAt` order and a permutation of the original |
| `Home.SummarizePost` | pages/index.tsx:100 | a post is cut down to its slug, title, publishedAt and image, unchanged |
| `Home.SummarizeProject` | pages/index.tsx:102-104 | a project is cut down to its slug, title, description and time, unchanged |
| `Home.FirstFour` | pages/index.tsx:99 | at most four posts are kept |
| `Home.SelectPosts` | pages/index.tsx:99-100 | the posts prop has min(4, n) entries, the first ones of the sorted list, each cut down field for field |
| `Home.SummarizePosts` | pages/index.tsx:100 | the posts keep their count and order, each cut down field for field |
| `Home.SelectPostsNewest` | pages/index.tsx:94-99 | from sorted posts the selected ones are newest first and none is older than any post left out |
| `Home.SummarizeProjects` | pages/index.tsx:102-104 | the projects prop keeps the count and order of all projects, each cut down field for field |
| `Home.GetStaticProps` | pages/index.tsx:93-109 | afterwards `allPosts` is sorted newest first and a permutation of its old contents; the posts prop is selected from the sorted array and the projects prop from all projects |
| `Pipeline.FormReachesCrm` | components/ContactForm.tsx:47-54 | every field the form sends, including the formatted phone number and the list of labels, reaches the matching CRM field unchanged |
| `Pipeline.ExampleLead` | pages/api/leadform.ts:55-64 | a worked lead (types `Blog`, names A and B, `a@b.com`, `+91 98765 43210`, `test`) becomes exactly the six-field CRM contact |

## Left out

- HTTP and SMTP transport: axios, `fetch` and nodemailer are not modelled. How each call ends is an input value. axios's classification of status codes as success or failure is part of that input.
- Environment reads: the environment is a record given to the handlers.
- Console logging, including the secret-prefix lines and the HTML content-type diagnostic. Only the diagnostic's throw is modelled, under Findings.
- LeadForm.GetAccessToken: `access_token` and `api_domain` are modelled as optional strings. Non-string values and their template-string conversion are not modelled.
- LeadForm.Handle: the request body is assumed to be a JSON object. A body of `null` throws at the destructuring before the try block, and that path is not modelled. `JSON.stringify` of the upstream body is a parameter.
- SendEmail.Handle: the request body is assumed to be a JSON object. A body of `null` throws at the destructuring before the try block (pages/api/send-email.ts:9), and that path is not modelled.
- SendEmail.Handle: `${error}` and `JSON.stringify(formData, null, 2)` are parameters. JavaScript's conversions themselves are not modelled.
- Phone-number validation, the idle/submitting/success/error state machine, the 5-second redirect and the client's call of the error-mail route: none of them appears in `components/ContactForm.tsx`, so none is modelled.
- ContactForm.Form.HandleSubmit: `e.preventDefault()` and the logging of the result are UI effects and are not modelled.
- Markup: JSX rendering, the SEO metadata, `pages/_document.tsx` and `pages/contact/index.tsx`.
- Button.Render: children, the variant and the CSS class names pass through unchanged and are not modelled.
- Three pieces that do not belong to this logic are not modelled: the "new" badge and image offsets of `components/Project.tsx` (wall clock, date parsing, floating point), the mouse-tracking geometry of `components/projectlist.tsx`, and the sitemap script.
- The field projection in the projects page's own `getStaticProps` is not modelled. Only its search filter is.
- `toLowerCase` is modelled for ASCII letters only. Unicode case mapping is not.
- Dates are integer timestamps. Date parsing, and unparseable dates giving NaN in the sort comparator, are not modelled. JSON numbers are integers.
- Home.SortNewestFirst: states that the result is sorted and a permutation of the input. It does not state that the sort is stable, which `Array.prototype.sort` guarantees, because a stability proof over the in-place array is beyond the solver budget of this model.

## Findings

| source | as written | input that shows it | evidently intended | confidence | as-written member | corrected member |
|---|---|---|---|---|---|---|
| pages/api/leadform.ts:79 | before answering, the catch block calls `.includes('text/html')` on the failed call's `content-type` header | a CRM failure whose answer has no `content-type` header: reading `.includes` of `undefined` throws inside the catch block, so the 500 with the error detail is never sent | answer 500 `Error submitting form` with the upstream body whatever the headers, the check being only a log line | not executed | `LeadForm.CatchBlockAsWritten` (shown by `LeadForm.CatchBlockAsWrittenCrashes`) | `LeadForm.CatchBlock` (used by `LeadForm.Handle`; its contract states the 500 for every failure) |
