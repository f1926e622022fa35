# Forkit site logic in Dafny

Forkit's web site is a React single-page application. Most of it is static
marketing copy, but around that copy sits a fair amount of behaviour:

- a router with a registry of 18 pages, 13 of them shown in navigation;
- a navigation bar whose desktop dropdowns and mobile accordions share one
  "open panel" slot;
- a language preference resolved at boot and persisted in browser storage;
- two independent implementations of a dark/light theme preference, one of
  which also rewrites the favicon links;
- five forms, each with required-field checks, one shared unanchored e-mail
  pattern, and a submit state machine;
- tab, status and search filters over fixed catalogues;
- fork counters behind an animated, re-entrancy-guarded button;
- a manifest paragraph splitter;
- the about page's "translation if well-formed, else defaults" choice.

This project models that behaviour and proves what the code promises about it.

It follows the source file by file:

- **Stateful controllers become classes.** These are the navigation bar, the
  app's language state, the theme toggle, the forms, the ballot, the fork
  button and the two fork counters. Their fields are the React state
  variables, and each handler is a method with a `modifies` clause whose
  `ensures` give the whole new state. The browser (`localStorage`, the root
  element's `dark` class and `lang` attribute, the `<link>` elements and the
  `theme-color` meta, whose presence never changes) is one `Browser.Document`
  object.
- **Pure code becomes functions and lemmas.** This covers the route registry,
  menu groups and highlight rules, filters, lookups, labels, the paragraph
  splitter and the about page getters. The lemmas prove what the code
  promises.
- **Timers become explicit events.** The fork button's 800 ms animation end
  is `TimerFired`, and the waitlist's delayed reset is `ResetFired`.
- **Faults become parameters.** A call that may throw inside
  `changeLanguage` is named by a `throwsAt` argument.

Shared modules:

- `Wrappers`: `Option` and `GetOr`.
- `Lists`: order-preserving `Filter` and `Map`, with their membership,
  concatenation and idempotence lemmas.
- `Text`:
  - the whitespace predicate and `trim`;
  - JavaScript's `split` with a string separator, and its `join` inverse;
  - substring search;
  - `toLowerCase` on A–Z and Ä/Ö/Ü.
- `Email`: the pattern `\S+@\S+\.\S+`, defined once.
  - `EmailLike` is its declarative meaning: somewhere in the text, a
    non-space character, an `@`, a run of non-space characters, a `.`, and a
    non-space character.
  - `TestEmail` is a scanner proved to accept exactly the `EmailLike`
    strings.
- `Forms`: the messages shared by the forms, and the e-mail rule
  ("required" when blank after trim, otherwise "invalid" when the unanchored
  pattern fails on the untrimmed text).
- `Catalog`: the `'all'`-or-equal tab filter used by the list pages.

Where the code and the site's written description differ, the model follows
the code:

- Changing route closes no menu. Only link click handlers and mousedowns
  outside the desktop container close the open panel.
- A browser reporting `fr-FR` yields `fr`, not the default "de": the boot
  language is not checked against the two offered languages.
- The boot language goes through `changeLanguage`, so a language derived from
  the browser is written to storage on first visit.
- A group button is highlighted from fixed path lists, not from the section of
  the current route, so "/manifest" does not highlight the main group.

Quirks of the code that the model keeps:

- `toggleMenu` leaves the open panel as it is.
- The vote page gives a blank address the "invalid" message, not a
  "required" one.
- Two fields are checked only for being non-empty, so a lone space passes:
  the partner form's partnership type, and the ideas search term.

## Model

| member | source | states |
|---|---|---|
| App.RegistryPathsDistinct | src/App.tsx:61-95 | The registry has 18 routes with pairwise distinct paths. |
| App.RegistryLayout | src/App.tsx:61-95 | The registry's `showInNav` flags: the 9th and the last four routes are hidden, all others are shown. |
| App.HiddenRoutes | src/App.tsx:61-95 | The routes marked hidden are exactly registry entries 9 and 15–18, five in all. |
| App.NavRoutesOfRegistry | src/App.tsx:98 | `navRoutes` is the registry minus the hidden routes, in registry order: entries 1–8 and 10–14, thirteen in all. |
| App.SeniorsIsNavRoute | src/App.tsx:72 | "/senioren" is passed to the navigation bar (the sixth navigation route). |
| App.Prefix2 | src/App.tsx:36 | `substring(0, 2)`: the first two characters, or the whole string when shorter. |
| App.BootLanguage | src/App.tsx:35-40 | The boot language is the stored value when non-empty, else the browser language's first two characters when non-empty, else "de"; never empty and never checked against de/en. |
| App.FirstVisitLanguages | src/App.tsx:36 | "en-US" gives "en", "fr-FR" gives "fr", an empty stored value with no browser language gives "de", a stored "en" wins over the browser. |
| App.AppState.constructor | src/App.tsx:31 | `currentLang` starts as "de" before the boot effect. |
| App.AppState.ChangeLanguage | src/App.tsx:43-58 | The try-block steps run in order; when one throws, it and every later step are skipped and one error is logged. Otherwise the i18n language, `currentLang`, stored "language" and the `lang` attribute all become `lang` and one event is sent. Theme state is untouched. |
| App.AppState.Boot | src/App.tsx:35-40 | The boot effect passes the resolved language to `changeLanguage`, so a browser-derived language is written to storage on first visit; the i18n language, `currentLang`, storage, `lang` attribute, event and error counts follow `changeLanguage`'s rule for the resolved language, and theme state is untouched. |
| App.RouteName | src/App.tsx:61-95 | A route's display name is the translation of its key, or its literal text verbatim. |
| App.LiteralNamesIgnoreLanguage | src/App.tsx:61-95 | "/senioren" and the five hidden routes have literal names that no translation changes; "/senioren" is always "Für Senioren". |
| App.RouterPathsOf | src/App.tsx:105-107 | The router gets one path per route, in route order, pairwise distinct when the routes' paths are. |
| App.RouterRegistersEveryRoute | src/App.tsx:97-107 | The router registers all 18 registry paths, hidden or not, once each and in registry order. |
| App.HiddenRoutesStillRouted | src/App.tsx:97-107 | A route marked `showInNav: false` is missing from the navigation routes but still registered with the router. |
| App.ChangeLanguageAgrees | src/App.tsx:44-50 | A fault-free change leaves state, storage and `lang` attribute all equal to the new language. |
| App.StorageFailureTearsState | src/App.tsx:46-47 | When the storage write throws, `currentLang` is already updated but storage and the `lang` attribute keep their old values. |
| Navbar.PanelKeys | src/components/Navbar.tsx:107 | The keys with a dropdown or accordion are main, offering, participate, resources, in that order; `actions` is not among them. |
| Navbar.GroupItemsMembers | src/components/Navbar.tsx:60-86 | A route is in a group's items iff it is one of the given routes and its path is in the group's fixed set. |
| Navbar.GroupPathsDisjoint | src/components/Navbar.tsx:60-86 | The five path sets are pairwise disjoint. |
| Navbar.AtMostOneGroup | src/components/Navbar.tsx:60-86 | A route appears in the items of at most one group. |
| Navbar.SeniorsNeverListed | src/components/Navbar.tsx:60-86 | No group lists "/senioren", whatever routes are given. |
| Navbar.GroupingIgnoresSection | src/components/Navbar.tsx:64 | "/manifest" and "/ueber-uns" share a registry `navSection` but land in different groups: grouping uses only the path sets. |
| Navbar.ButtonHighlighted | src/components/Navbar.tsx:110-117 | A desktop group button is highlighted iff its dropdown is open, or it is `main` on "/", or it is offering/participate/resources and the path is in its set. |
| Navbar.ManifestDoesNotHighlightMain | src/components/Navbar.tsx:112 | "/manifest" is in the main group, yet with nothing open it does not highlight the main button. |
| Navbar.ButtonHighlightOnPath | src/components/Navbar.tsx:113-115 | With nothing open, a non-main panel button is highlighted exactly on its own group's paths. |
| Navbar.MobileHeaderHighlighted | src/components/Navbar.tsx:199-201 | A mobile accordion header is highlighted iff the slot holds its own `mobile-` key; the current path plays no part. |
| Navbar.RouteHighlightsOnlyDesktop | src/components/Navbar.tsx:110-117 | With nothing open, a page of the offering, participate or resources group highlights its desktop button, while no mobile header is highlighted (lines 199-201 do not look at the path). |
| Navbar.OneHighlightedLink | src/components/Navbar.tsx:134 | Among routes with distinct paths, at most one link of a group is highlighted for the current path. |
| Navbar.KeysDistinct | src/components/Navbar.tsx:202 | Desktop keys and `mobile-` keys are injective and never equal each other. |
| Navbar.AtMostOnePanel | src/components/Navbar.tsx:127 | With one shared slot, at most one desktop dropdown and at most one accordion is open, and never a dropdown and an accordion together. |
| Navbar.NavbarState.constructor | src/components/Navbar.tsx:18-20 | Starts closed, not scrolled, with an empty slot. |
| Navbar.NavbarState.ToggleMenu | src/components/Navbar.tsx:50-52 | Flips `isOpen` and leaves the slot and `scrolled` unchanged. |
| Navbar.NavbarState.CloseMenu | src/components/Navbar.tsx:54-57 | From any state: the drawer closed and the slot empty. |
| Navbar.NavbarState.ToggleDropdown | src/components/Navbar.tsx:88-94 | The slot becomes empty when it held `key`, otherwise `key`. |
| Navbar.NavbarState.HandleScroll | src/components/Navbar.tsx:25-31 | `scrolled` iff the (possibly fractional) `scrollY > 10`; the drawer and the slot are untouched. |
| Navbar.NavbarState.HandleMouseDown | src/components/Navbar.tsx:36-40 | A press outside the desktop container empties the slot; one inside leaves it. |
| Navbar.NavbarState.PressDesktopButton | src/components/Navbar.tsx:105-118 | Mousedown inside the container, then the toggle: the button's own key opens or closes, keeping the slot well formed. |
| Navbar.NavbarState.PressMobileHeader | src/components/Navbar.tsx:202 | The drawer is outside the ref, so the mousedown empties the slot first and a header press always ends with its own panel open: that header alone is highlighted and no desktop dropdown is visible. |
| Navbar.NavbarState.PressMenuButton | src/components/Navbar.tsx:169 | The mobile menu button flips the drawer and, through the mousedown, empties the slot. |
| Navbar.NavbarState.FollowLink | src/components/Navbar.tsx:138 | Every link empties the slot; only links with the `closeMenu` handler (all but the desktop action links) close the drawer. |
| Navbar.ToggleTwiceFromClosed | src/components/Navbar.tsx:88-94 | Toggling the same key twice from an empty slot leaves it empty. |
| Navbar.MobileClosesDesktop | src/components/Navbar.tsx:202 | Opening a mobile accordion closes every desktop dropdown. |
| LanguageSwitcher.ToggleLanguage | src/components/LanguageSwitcher.tsx:13-16 | The value passed to `setCurrentLang` is "en" iff the current language is "de", and "de" otherwise. |
| LanguageSwitcher.ButtonLabel | src/components/LanguageSwitcher.tsx:25 | The label is "EN" iff the language is "de", else "DE". |
| LanguageSwitcher.ToggleTwice | src/components/LanguageSwitcher.tsx:14 | On de/en two presses restore the language; any other value goes to "de" then "en". |
| LanguageSwitcher.LabelNamesTarget | src/components/LanguageSwitcher.tsx:25 | The label names the language a press selects. |
| Browser.Document.GetItem | src/utils/ThemeUtils.ts:55 | `localStorage.getItem`: the stored value, or null when the key is absent. |
| ThemeUtils.DarkPreferred | src/utils/ThemeUtils.ts:58 | Dark iff the stored theme is "dark", or nothing (or "") is stored and the system prefers dark; any other stored value forces light. |
| ThemeUtils.ThemeName | src/utils/ThemeUtils.ts:63-67 | "dark" iff the flag, "light" iff not. |
| ThemeUtils.NewFavicons | src/utils/ThemeUtils.ts:21-41 | Three links in order: "/favicon.svg", the dark or light alternate by flag, "/favicon.ico". |
| ThemeUtils.UpperCaseRelIsFavicon | src/utils/ThemeUtils.ts:11 | `rel*="icon"` matches `rel` ASCII case-insensitively, so a `rel="ICON"` favicon is removed too. |
| ThemeUtils.NewFaviconsAreFavicons | src/utils/ThemeUtils.ts:11-15 | Each appended link has a rel containing "icon" and an href containing "favicon", so the next update removes it. |
| ThemeUtils.KeptMembers | src/utils/ThemeUtils.ts:11-18 | A link survives the removal iff it is not an icon link with "favicon" in its href. |
| ThemeUtils.UpdateIdempotent | src/utils/ThemeUtils.ts:9-48 | Two updates leave the same links as one update with the second flag: links do not accumulate. |
| ThemeUtils.RemoveFavicons | src/utils/ThemeUtils.ts:14-18 | The `forEach` removal leaves exactly the non-favicon links, in document order. |
| ThemeUtils.UpdateFavicon | src/utils/ThemeUtils.ts:9-48 | Links become the kept links plus the three new ones; `theme-color` is set to #092533 or #2D6E7E only when the meta exists; storage, class and lang untouched. |
| ThemeUtils.InitializeTheme | src/utils/ThemeUtils.ts:54-69 | Returns "dark" exactly when it sets the class; the favicons and, when the meta exists, `theme-color` follow; storage is never written. |
| ThemeUtils.ToggleTheme | src/utils/ThemeUtils.ts:75-89 | Decides from the class: flips it, stores the new theme, returns it (equal to the stored value), updates the favicons and, when the meta exists, `theme-color`. |
| ThemeUtils.OnSystemChange | src/utils/ThemeUtils.ts:97-107 | With a theme stored nothing changes; otherwise the class, favicons and (when the meta exists) `theme-color` follow the system's value. |
| ThemeUtils.ToggleTwice | src/utils/ThemeUtils.ts:75-89 | Two toggles restore the class, return different themes, and leave the links and `theme-color` of one update with the original theme. |
| ThemeUtils.StoredThemeIgnoresSystem | src/utils/ThemeUtils.ts:97-99 | After a toggle has stored a theme, a system change no longer alters the class. |
| ThemeToggle.ThemeToggleState.constructor | src/components/ThemeToggle.tsx:4 | `darkMode` starts false. |
| ThemeToggle.ThemeToggleState.Mount | src/components/ThemeToggle.tsx:7-19 | `darkMode` and the class follow the stored theme or the system signal; storage and links are untouched. |
| ThemeToggle.ThemeToggleState.Toggle | src/components/ThemeToggle.tsx:22-33 | Decides from `darkMode`: flips it, sets the class to match and stores the new theme; favicons and the meta are untouched. |
| ThemeToggle.ThemeToggleState.AriaLabel | src/components/ThemeToggle.tsx:39 | "Switch to light mode" iff `darkMode`. |
| ThemeToggle.ToggleTwice | src/components/ThemeToggle.tsx:22-33 | Two toggles restore `darkMode` and the class, and leave the original theme stored. |
| ThemeToggle.StaleFieldDisagrees | src/components/ThemeToggle.tsx:23-31 | When the class was set elsewhere while `darkMode` is false, a press keeps the class on and stores "dark". |
| Email.TestEmail | src/pages/ContactPage.tsx:98 | The scanner for `/\S+@\S+\.\S+/.test` accepts exactly the strings containing a match. |
| Email.EmailLikeNotBlank | src/pages/ContactPage.tsx:96-98 | An accepted address is never blank. |
| Email.UnanchoredMatch | src/pages/ContactPage.tsx:98 | Text around a match keeps it accepted: the pattern is not anchored. |
| Email.NeedsCharacterAroundTheMarks | src/pages/ContactPage.tsx:98 | "@b.c", "a@b." and "a@.c" fail; "a@b.c" passes. |
| Forms.EmailError | src/pages/ContactPage.tsx:96-100 | "Required" when blank after trim; otherwise "invalid" when the pattern fails on the untrimmed text; no error iff the pattern matches. |
| Forms.PaddedAddressPasses | src/pages/ContactPage.tsx:98 | " a@b.c " passes: the test sees the untrimmed text and is unanchored. |
| Forms.ClearError | src/pages/ContactPage.tsx:80-86 | Deletes the edited field's entry when it holds a message; every other entry is unchanged. |
| ContactPage.WithField | src/pages/ContactPage.tsx:74-77 | Writes the named field (`checked` for the consent box, `value` otherwise); every other field is unchanged. |
| ContactPage.Errors | src/pages/ContactPage.tsx:89-112 | The error map has an entry for exactly the failing fields: blank name, failing email (with the email rule's message), blank message, missing consent. |
| ContactPage.ValidIff | src/pages/ContactPage.tsx:89-112 | Valid iff name and message are not blank, the email passes and consent is given. |
| ContactPage.SubjectNeverChecked | src/pages/ContactPage.tsx:89-112 | The subject never affects validation. |
| ContactPage.ContactForm.constructor | src/pages/ContactPage.tsx:8-16 | The initial record (empty strings, no consent), no errors, not submitted. |
| ContactPage.ContactForm.HandleChange | src/pages/ContactPage.tsx:70-87 | Writes one field and deletes only that field's error. |
| ContactPage.ContactForm.ValidateForm | src/pages/ContactPage.tsx:89-112 | Replaces the error map with `Errors` of the record and returns whether it is empty. |
| ContactPage.ContactForm.HandleSubmit | src/pages/ContactPage.tsx:114-126 | Sets `formSubmitted` only when valid; the record is never changed. |
| ContactPage.ContactForm.NewMessage | src/pages/ContactPage.tsx:191-201 | Restores the initial record and shows the form again. |
| ContactPage.InvalidSubmitChangesNoData | src/pages/ContactPage.tsx:117-119 | An invalid submit leaves the record and the submitted flag unchanged and flags the failing field. |
| PartnerPage.WithField | src/pages/PartnerPage.tsx:41-58 | Writes the named field; every other field is unchanged. |
| PartnerPage.Errors | src/pages/PartnerPage.tsx:60-87 | An entry for exactly: blank name, failing email, blank organization, empty partnership type, missing consent. |
| PartnerPage.ValidIff | src/pages/PartnerPage.tsx:60-87 | Valid iff name and organization are not blank, the email passes, a type is chosen and consent is given. |
| PartnerPage.MessageNeverChecked | src/pages/PartnerPage.tsx:60-87 | The message is optional. |
| PartnerPage.PartnerTypeOnlyNonEmpty | src/pages/PartnerPage.tsx:77-79 | " " and "freelance" pass the type check though neither is one of the four offered ids. |
| PartnerPage.PartnerForm.constructor | src/pages/PartnerPage.tsx:7-16 | The initial record, no errors, not submitted. |
| PartnerPage.PartnerForm.HandleChange | src/pages/PartnerPage.tsx:41-58 | Writes one field and deletes only that field's error. |
| PartnerPage.PartnerForm.ValidateForm | src/pages/PartnerPage.tsx:60-87 | Replaces the error map with `Errors` of the record and returns whether it is empty. |
| PartnerPage.PartnerForm.HandleSubmit | src/pages/PartnerPage.tsx:89-101 | Sets `formSubmitted` only when valid and never clears it. |
| StoryPage.WithField | src/pages/StoryPage.tsx:45-62 | Writes the named field (`checked` for the two consent boxes); every other field is unchanged. |
| StoryPage.Errors | src/pages/StoryPage.tsx:64-83 | An entry for exactly: blank story, failing email, missing contact consent. |
| StoryPage.ValidIff | src/pages/StoryPage.tsx:64-83 | Valid iff the story is not blank, the email passes and contact consent is given. |
| StoryPage.UncheckedFields | src/pages/StoryPage.tsx:64-83 | Name, industry, wish list and share consent never affect validation. |
| StoryPage.StoryForm.constructor | src/pages/StoryPage.tsx:8-18 | The initial record, no errors, not submitted. |
| StoryPage.StoryForm.HandleChange | src/pages/StoryPage.tsx:45-62 | Writes one field and deletes only that field's error. |
| StoryPage.StoryForm.ValidateForm | src/pages/StoryPage.tsx:64-83 | Replaces the error map with `Errors` of the record and returns whether it is empty. |
| StoryPage.StoryForm.HandleSubmit | src/pages/StoryPage.tsx:85-97 | Sets `formSubmitted` only when valid and never clears it. |
| WaitlistPage.WithField | src/pages/WaitlistPage.tsx:17-34 | Writes the named field (`checked` for the two boxes); every other field is unchanged. |
| WaitlistPage.Errors | src/pages/WaitlistPage.tsx:36-55 | An entry for exactly: blank name, failing email, missing consent. |
| WaitlistPage.ValidIff | src/pages/WaitlistPage.tsx:36-55 | Valid iff the name is not blank, the email passes and consent is given. |
| WaitlistPage.OptionalFields | src/pages/WaitlistPage.tsx:36-55 | Statement and newsletter never affect validation. |
| WaitlistPage.WaitlistForm.constructor | src/pages/WaitlistPage.tsx:7-15 | The initial record, no errors, not submitted, no reset pending. |
| WaitlistPage.WaitlistForm.HandleChange | src/pages/WaitlistPage.tsx:17-34 | Writes one field and deletes only that field's error. |
| WaitlistPage.WaitlistForm.ValidateForm | src/pages/WaitlistPage.tsx:36-55 | Replaces the error map with `Errors` of the record and returns whether it is empty. |
| WaitlistPage.WaitlistForm.HandleSubmit | src/pages/WaitlistPage.tsx:57-81 | A valid submit sets `formSubmitted` and schedules one reset; an invalid one changes only the errors and schedules nothing. |
| WaitlistPage.WaitlistForm.ResetFired | src/pages/WaitlistPage.tsx:71-80 | A scheduled reset restores the initial record and clears `formSubmitted`; the errors stay. |
| WaitlistPage.SubmitThenReset | src/pages/WaitlistPage.tsx:57-81 | A valid submit followed by its reset leaves an empty, unsubmitted form with no errors. |
| VotingPage.Names | src/pages/VotingPage.tsx:13-29 | The option names in display order. |
| VotingPage.VotesAtMostTotal | src/pages/VotingPage.tsx:32 | Every option's tally is at most the `reduce` total. |
| VotingPage.TotalOfOptions | src/pages/VotingPage.tsx:13-32 | The total of the fixed tallies 64, 38, 27 is 129. |
| VotingPage.Percent | src/pages/VotingPage.tsx:139 | `Math.round(votes / total * 100)` in exact arithmetic: the integer nearest to 100·votes/total, halves rounded up, between 0 and 100 for a tally within the total. |
| VotingPage.ShownShares | src/pages/VotingPage.tsx:139 | The shown shares are 50 %, 29 % and 21 %. |
| VotingPage.EmailRejectedIff | src/pages/VotingPage.tsx:38 | The vote's check `!email \|\| !pattern.test(email)` rejects exactly the strings without a match. |
| VotingPage.BlankAddressIsInvalid | src/pages/VotingPage.tsx:38-39 | A blank address is rejected with the "invalid" message, while the forms would say "required". |
| VotingPage.Ballot.constructor | src/pages/VotingPage.tsx:7-10 | No selection, empty address, not voted, no error. |
| VotingPage.Ballot.Select | src/pages/VotingPage.tsx:109 | Selecting an option sets `selectedName` to that name; nothing else changes. |
| VotingPage.Ballot.EditEmail | src/pages/VotingPage.tsx:154-157 | Typing sets the address and clears the error. |
| VotingPage.Ballot.HandleVote | src/pages/VotingPage.tsx:34-52 | A rejected address sets the "invalid" error and does not vote; an accepted one votes iff a name is selected; tallies, address and selection never change. |
| VotingPage.Ballot.Back | src/pages/VotingPage.tsx:86 | "Back" clears `voted` and keeps the selection and the address. |
| VotingPage.VoteTwice | src/pages/VotingPage.tsx:34-86 | Voting, going back and voting again votes again, with no error. |
| Catalog.TabFilter | src/pages/SolutionsPage.tsx:145-147 | A tab's list is never longer than the catalogue. |
| Catalog.AllTabShowsEverything | src/pages/SolutionsPage.tsx:145-147 | The tab `'all'` shows the catalogue unchanged. |
| Catalog.TabMembers | src/pages/BlogPage.tsx:84-86 | Any other tab shows exactly the items whose key equals it. |
| Catalog.TabsPartition | src/pages/SolutionsPage.tsx:145-147 | An item with a non-`'all'` key is shown under its own tab and under no other. |
| Catalog.TabEmptyIff | src/pages/SolutionsPage.tsx:255 | A non-`'all'` tab's list is empty iff no item carries its key. |
| SolutionsPage.InitialShowsAll | src/pages/SolutionsPage.tsx:8 | The page opens on `'all'`, showing all six solutions. |
| SolutionsPage.SolutionsLayout | src/pages/SolutionsPage.tsx:11-126 | The category and status of each of the six solutions, by position. |
| SolutionsPage.OneTabPerSolution | src/pages/SolutionsPage.tsx:145-147 | Each solution appears under exactly one non-`'all'` tab, its own category. |
| SolutionsPage.StatusLookupTotal | src/pages/SolutionsPage.tsx:204-205 | Every solution's status is a key of `statusLabels`. |
| SolutionsPage.FixedTabsNonEmpty | src/pages/SolutionsPage.tsx:255 | No tab button selects an empty list, so the "no solutions" message never shows. |
| SolutionsPage.CommerceOfLayout | src/pages/SolutionsPage.tsx:145-147 | In a list laid out like the solutions, the commerce tab holds the third and fourth entries, in order. |
| SolutionsPage.CommerceTab | src/pages/SolutionsPage.tsx:145-147 | The commerce tab lists the shop and then the ordering system. |
| BlogPage.CategoryLabel | src/pages/BlogPage.tsx:175-177 | One of the four labels; "Analyse" iff the category is not criticism, alternatives or case-studies. |
| BlogPage.LabelsAgainstButtons | src/pages/BlogPage.tsx:183-185 | The card labels agree with the category buttons, in the singular for the two plural button names. |
| BlogPage.EmptyStateOrLoadMore | src/pages/BlogPage.tsx:219 | The empty state shows iff the filtered list is empty, and exactly then the load-more button does not. |
| BlogPage.PostsLayout | src/pages/BlogPage.tsx:20-81 | The category of each of the six posts, by position. |
| BlogPage.PostCategoriesKnown | src/pages/BlogPage.tsx:11-81 | Every post's category is the id of a non-`'all'` button. |
| BlogPage.ButtonsNonEmpty | src/pages/BlogPage.tsx:241 | Every button selects a non-empty list: load more shows, the empty state does not. |
| BlogPage.InitialShowsAll | src/pages/BlogPage.tsx:8 | The initial selection (also the empty state's reset) shows all six posts. |
| BlogPage.UnknownCategoryIsEmpty | src/pages/BlogPage.tsx:233 | A selection matching no button would show the empty state. |
| IdeasPage.FilteredIdeasOnePass | src/pages/IdeasPage.tsx:86-92 | The status filter followed by the search keeps exactly what one order-preserving filter with both tests keeps. |
| IdeasPage.FilteredIdeasMembers | src/pages/IdeasPage.tsx:86-92 | An idea is listed iff it passes the status test (`'all'` or equal) and the search test (empty term, or the lowercased title or description contains the lowercased term); the result is one order-preserving filter. |
| IdeasPage.ShownAtMostTotal | src/pages/IdeasPage.tsx:237 | The shown count never exceeds the total. |
| IdeasPage.ResetShowsAll | src/pages/IdeasPage.tsx:222-225 | `'all'` with an empty term lists every idea, in order. |
| IdeasPage.BlankTermIsASearch | src/pages/IdeasPage.tsx:89 | A whitespace-only term is a search, not an empty term: it hides an idea without spaces, which the empty term shows. |
| IdeasPage.FindStatus | src/pages/IdeasPage.tsx:96 | `find`: the first entry with the id, or none iff no entry has it. |
| IdeasPage.StatusDetails | src/pages/IdeasPage.tsx:95-98 | The table's entry with the id, name and colour included, when there is one; otherwise the first table entry; always an entry of the table. |
| IdeasPage.IdeasLayout | src/pages/IdeasPage.tsx:22-83 | The status of each of the six ideas, by position. |
| IdeasPage.StatusKnownOfLayout | src/pages/IdeasPage.tsx:12-19 | Every status used by a list laid out like the ideas has its own coloured entry. |
| IdeasPage.EveryStatusKnown | src/pages/IdeasPage.tsx:157 | Every idea's status has an entry with a colour, so the fallback is never used. |
| IdeasPage.CategoryLabel | src/pages/IdeasPage.tsx:182-183 | tool gives "Werkzeug", platform gives "Plattform", and "Initiative" comes iff the category is neither. |
| IdeasPage.IndustryKey | src/pages/IdeasPage.tsx:179 | Both branches of the conditional give the key for the idea's own industry. |
| ProjectPage.Project.constructor | src/pages/ProjectPage.tsx:7-8 | 24 forks, not forked. |
| ProjectPage.Project.HandleFork | src/pages/ProjectPage.tsx:10-15 | Counts one fork and sets `hasFork` only the first time; keeps forks = 24 + (1 if forked). |
| ProjectPage.Project.MainButtonProps | src/pages/ProjectPage.tsx:27-32 | After forking, a main button is disabled, secondary and labelled "Forked"; before, enabled, primary and labelled as given. |
| ProjectPage.Project.PressMainButton | src/pages/ProjectPage.tsx:179-184 | A press forks iff not yet forked and the button is not animating; the invariant holds. |
| ProjectPage.BothButtons | src/pages/ProjectPage.tsx:27-32 | Pressing the header and then the footer button counts one fork; the footer button, now disabled, does not animate. |
| ForkButton.Resolve | src/components/ForkButton.tsx:14-19 | Omitted props default to "Fork", primary, medium, "" and enabled; given props are kept. |
| ForkButton.BareButton | src/components/ForkButton.tsx:14-19 | A button without props has exactly the defaults. |
| ForkButton.ForkButtonState.constructor | src/components/ForkButton.tsx:21 | Not animating, no timer. |
| ForkButton.ForkButtonState.HandleClick | src/components/ForkButton.tsx:23-30 | `onClick` runs iff the button is enabled, not animating and has a callback; an enabled click leaves the animation running with its timer pending. |
| ForkButton.ForkButtonState.TimerFired | src/components/ForkButton.tsx:27 | The timer is the only way the animation ends. |
| ForkButton.DoubleClick | src/components/ForkButton.tsx:24 | A second click in the same window does not call `onClick`. |
| ForkButton.ClickAfterWindow | src/components/ForkButton.tsx:23-30 | After the timer, the next click is taken again. |
| ForkButtonDemoPage.Demo.constructor | src/pages/ForkButtonDemoPage.tsx:7 | The counter starts at 42. |
| ForkButtonDemoPage.Demo.HandleFork | src/pages/ForkButtonDemoPage.tsx:9-11 | Each call adds exactly one, with no guard. |
| ForkButtonDemoPage.Demo.PressForkButton | src/pages/ForkButtonDemoPage.tsx:26 | Through the button, a click counts iff no animation runs; the counter never decreases. |
| ForkButtonDemoPage.ThreeClicks | src/pages/ForkButtonDemoPage.tsx:26 | Click, click in the same window, timer, click: two forks. |
| ManifestPage.AtMostChunks | src/pages/ManifestPage.tsx:78 | There are never more paragraphs than chunks. |
| ManifestPage.ParagraphClean | src/pages/ManifestPage.tsx:78 | Every paragraph is non-empty, has no whitespace at either end, contains no blank line, and is the trim of some chunk. |
| ManifestPage.NonBlankChunkKept | src/pages/ManifestPage.tsx:78 | Every chunk that is not blank is kept, trimmed. |
| ManifestPage.EmptyTextNoParagraphs | src/pages/ManifestPage.tsx:78 | An empty text has no paragraphs. |
| ManifestPage.VersesNumberedFromOne | src/pages/ManifestPage.tsx:10-51 | The ten verses are numbered 1 to 10 consecutively. |
| ManifestPage.Press | src/pages/ManifestPage.tsx:92 | The verse button gives verse mode and the prose button gives prose mode. |
| ManifestPage.PressIdempotent | src/pages/ManifestPage.tsx:102 | Pressing a button again changes nothing, whatever the mode was before. |
| AboutPage.HasKey | src/pages/AboutPage.tsx:120 | JavaScript's `in`: it throws on a primitive, and it is true iff the value is an object holding the key. |
| AboutPage.Get | src/pages/AboutPage.tsx:341 | A property read throws exactly on null and undefined, and returns a present object property. |
| AboutPage.Choose | src/pages/AboutPage.tsx:116-127 | The translated list iff the lookup is a non-empty array whose first element has the key; otherwise, including when the lookup or the test throws, the defaults; never empty with non-empty defaults. |
| AboutPage.PrimitiveFirstElementGivesDefaults | src/pages/AboutPage.tsx:124-126 | A primitive first element makes the test throw, and the defaults are used. |
| AboutPage.MissingKeyGivesDefaults | src/pages/AboutPage.tsx:123 | A missing translation (returned as its key string) yields the defaults. |
| AboutPage.TeamMembers | src/pages/AboutPage.tsx:116-127 | `getTeamMembers` tests for `name` and is never empty. |
| AboutPage.Values | src/pages/AboutPage.tsx:129-140 | `getValues` tests for `title` and is never empty. |
| AboutPage.Milestones | src/pages/AboutPage.tsx:142-153 | `getMilestones` tests for `year` and is never empty. |
| AboutPage.OnlyFirstElementChecked | src/pages/AboutPage.tsx:120-121 | A translated team is used as it is when its first element has `name`, whatever the rest holds. |
| AboutPage.ValuesAreNotATeam | src/pages/AboutPage.tsx:133 | The value list passes the values test but not the team test. |
| AboutPage.TeamGrid | src/pages/AboutPage.tsx:328 | The grid is never longer than the team. |
| AboutPage.TeamGridMembers | src/pages/AboutPage.tsx:328 | The grid holds exactly the members not named "Denis Kreuzer". |
| AboutPage.DefaultGrid | src/pages/AboutPage.tsx:27-63 | With the default team, the grid is the last four members, in order. |
| AboutPage.Initials | src/pages/AboutPage.tsx:341 | Throws iff the name splits into fewer than two words; otherwise at most two characters. |
| AboutPage.TwoWordInitials | src/pages/AboutPage.tsx:341 | Two space-free words joined by one space give their two first letters. |
| AboutPage.OneWordThrows | src/pages/AboutPage.tsx:341 | A one-word name makes the card throw. |
| AboutPage.MemberTwoWordInitials | src/pages/AboutPage.tsx:341 | A member with a two-word name gets its two initials. |
| AboutPage.SarahBergerInitials | src/pages/AboutPage.tsx:36-41 | The first member shown in the default grid gets "SB". |

## Left out

- Rendering, JSX markup, CSS classes and the Tailwind configuration; the styling helpers in Button, HeroBackground, ImageContainer, SectionTitle and StoryTemplate.
- The static content pages (home, seniors, target groups, customer story, imprint, privacy, footer) and the i18n dictionaries in `src/i18n.ts`; the translation function `t` is a parameter of `App.RouteName`, and the about page's lookup result is an input value.
- Event-listener registration and removal, and `dispatchEvent`: handlers are methods, and the `languageChanged` event is a counter.
- Timers: the 800 ms animation end and the 5 s waitlist reset are explicit `TimerFired` and `ResetFired` events; real time is not modelled.
- `console.log` and `console.error` output, the manifest's clipboard copy and alert, and image loading.
- Floating point: the vote bars' widths are left out, and the shown percentage is computed in exact arithmetic (`VotingPage.Percent`), which agrees with `Math.round` except on halves that floating point happens to misround. The navigation bar's `scrollY` is an exact `real`, so fractional scroll positions are covered.
- The browser's own checks on the `type="email"` inputs, which run before any submit handler because no form sets `noValidate`: the browser strips surrounding whitespace from the value and blocks most malformed addresses. The handlers are modelled on any text they may receive; `Forms.PaddedAddressPasses` and the "invalid" result for an address such as "abc" therefore cannot be reached by typing into the page.
- Dates and locale formatting on the blog and ideas pages.
- The manifest's prose and verse texts, the long biographies on the about page, and the descriptions on the list pages; only the fields the logic reads are kept.
- `Text.Lower`: lower-cases only A–Z and Ä, Ö, Ü, which are the letters of the site's own text; the remaining Unicode case mappings of `toLowerCase` are not modelled.
- React's batching of state updates: each handler's updates are applied at once, in source order.
- `App.AppState.ChangeLanguage`: which statement throws is a parameter; the reason for the throw is not modelled.
- AboutPage: a team member that is null or undefined makes the `filter` at line 328 throw during rendering; the model's grid is a pure filter and leaves that crash out.
- `Navbar.NavbarState.FollowLink`: the route change that the link itself causes is not modelled, since no state of the bar depends on it.
- LanguageSwitcher is rendered by none of the shown files, and App passes `setCurrentLang` to the navigation bar, whose props do not accept it; both are modelled as written and the link between them is left out.
