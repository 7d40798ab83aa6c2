# Candidate scoring and resume extraction, modelled in Dafny

This project models the core of an applicant-screening service.

Scoring is done by `CandidateScorer`, which takes:

- a parsed candidate record;
- a job description;
- an optional AI analysis.

It then:

1. fuses the AI's extracted data into the record;
2. computes seven dimension scores: skills, experience, education, relevance, technical depth, culture fit and keywords;
3. weights them and applies the fixed penalties and the bonus;
4. clamps the total to 0..100 and grades it A–F;
5. builds the ordered feedback.

A batch of results can then be ranked. Upstream, `ResumeParser` extracts the candidate record from resume text. It does so by:

- line scans for the name and the summary;
- fixed-vocabulary substring scans for skills, degrees, certifications and languages;
- a few fixed regular expressions for email, phone and years of experience. Each is written out as a scanner.

Smaller parts round out the model:

- the in-memory TTL cache of `CacheService`;
- the upsert-by-id candidate list of `StorageService`;
- from the AI service: the fallback question generator, the keyword picker and the cleanup of AI responses;
- from the web application: the upload-extension check, the CSV export, download names and the Zapier payload;
- from the email service: the guards, the field fallbacks, resume-link resolution and subject choice.

Modules follow the source files:

| module | file | models |
|---|---|---|
| `Wrappers` | `wrappers.dfy` | `Option` and `Result` |
| `Text` | `text.dfy` | the Python string operations the code uses, as functions. These are case mapping, `in`, `find`/`rfind`, `strip`, `split`/`join`, `replace` and `str(int)`. |
| `Patterns` | `patterns.dfy` | the regular expressions of the parser and the scorer, as first-match scanners |
| `ResumeParser` | `resume_parser.dfy` | `services/resume_parser.py` |
| `CandidateScorer` | `candidate_scorer.dfy` | `services/candidate_scorer.py`, except ranking |
| `Ranking` | `ranking.dfy` | `rank_candidates` |
| `CacheService` | `cache_service.dfy` | the memory path of `services/cache_service.py` (class `MemoryCache`) |
| `StorageService` | `storage_service.dfy` | `services/storage_service.py` (class `CandidateStore`) |
| `AIService` | `ai_service.dfy` | the non-network parts of `services/ai_service.py` |
| `App` | `app.dfy` | the request-independent parts of `app.py` |
| `EmailService` | `email_service.dfy` | the decisions of `services/email_service.py` |

Modelling conventions:

- **Scores.** Scores are `real` and kept exact.
- **Python truthiness.** Missing or falsy values are `Option`s, and the model checks them the way the source does. An empty string, a zero and an empty list are falsy.
- **Absent AI analysis.** `None` stands for an absent or empty `ai_analysis` dict.
- **Clock.** Time enters as a parameter: `now` for the cache, and the seconds and ISO text for storage.
- **Outside effects.** An outside effect enters as a boolean parameter. For example, `delivered` says whether SMTP accepted a message.
- **Loops.** Code that loops in the source is a `method` with a loop, with one exception: the pattern loop of `_extract_required_years` (services/candidate_scorer.py:357-363) is only the function `CandidateScorer.RequiredYears`, written with `FirstPattern`. Each such method is proved equal to a specification function, and the properties are lemmas about that function.
- **In-place updates.** State the source changes in place is a class: the two cache dictionaries, and the stored candidate list.

The candidate scorer has seven dimensions, and exactly these penalty and bonus rules:

- 8 per missing must-have, capped at 30;
- 15 for relevance below 40;
- 10 for an AI probability above 85;
- +5 when both relevance and depth are above 90;
- an unbounded `score_adjustment`.

Names come from the first short line, and the AI-suspicion feedback threshold is 75.

## Model

| member | source | states |
|---|---|---|
| CandidateScorer.WeightsSumToOne | services/candidate_scorer.py:10-18 | the seven weights sum to exactly 1.0 |
| CandidateScorer.WeightedTotalBetween | services/candidate_scorer.py:90 | the weighted total lies between any lower and upper bound of all seven dimensions (a convex combination) |
| CandidateScorer.MatchedSkills | services/candidate_scorer.py:195-221 | each candidate skill is matched at most once, so there are no more matches than skills |
| CandidateScorer.MatchedSkillsMeaning | services/candidate_scorer.py:195-221 | every matched skill is one of the candidate's skills and matches directly, through one of its spellings, or through its abbreviation as a whole word |
| CandidateScorer.MatchedSkillsComplete | services/candidate_scorer.py:195-221 | conversely, every candidate skill that matches in one of those three ways is among the matched skills |
| CandidateScorer.MatchedSkillsCount | services/candidate_scorer.py:195-230 | the number of matches `len(matched_skills)` that the score uses is exactly the number of positions of the candidate's list whose skill matches, repeats counted |
| CandidateScorer.SkillScore | services/candidate_scorer.py:223-240 | the skill score is within 0..100 and is 0 exactly when nothing matched |
| CandidateScorer.SkillScoreMonotone | services/candidate_scorer.py:231-238 | more matches among the same skills never lower the skill score |
| CandidateScorer.ScoreSkills | services/candidate_scorer.py:169-240 | the matching loop yields the skill score of the number of matched skills (0 for no skills) |
| CandidateScorer.RequiredYears | services/candidate_scorer.py:349-365 | a required figure found is non-negative |
| CandidateScorer.RequiredYearsAreNumber | services/candidate_scorer.py:351-361 | a required figure is the value of a digit run in the lower-cased description, taken from the first pattern that matches |
| CandidateScorer.ExperienceBand | services/candidate_scorer.py:250-278 | every experience band lies in 0..100 |
| CandidateScorer.ScoreExperience | services/candidate_scorer.py:242-248 | unknown years score 50; every score lies in 0..100 |
| CandidateScorer.ExperienceAgainstRequired | services/candidate_scorer.py:264-278 | with required R: at least R+1 years scores 100, R up to R+1 scores 95, and fewer than R scores at most 75 |
| CandidateScorer.ExperienceMonotone | services/candidate_scorer.py:250-278 | more years never lower the experience score, with or without a required figure |
| CandidateScorer.ScoreEducation | services/candidate_scorer.py:280-307 | no records score 50, and only no records do; every score lies in 50..100 |
| CandidateScorer.HasDegreeAppend | services/candidate_scorer.py:288-290 | a degree found among the records is still found after another record is added |
| CandidateScorer.EducationMonotone | services/candidate_scorer.py:288-307 | another education record never lowers the education score |
| CandidateScorer.KeywordScore | services/candidate_scorer.py:324-330 | the score lies in 0..100; it is 50 without job keywords, 100 when all are in the resume, and 0 when none are |
| CandidateScorer.KeywordScoreMonotone | services/candidate_scorer.py:327-330 | more resume keywords never lower the keyword score |
| CandidateScorer.ScoreCertifications | services/candidate_scorer.py:332-347 | no certifications score 50; otherwise the score is at least 75, and it is 100 exactly when one is mentioned in the description |
| CandidateScorer.CertificationsMonotone | services/candidate_scorer.py:340-347 | another certification never lowers the certification score |
| CandidateScorer.GradeOf | services/candidate_scorer.py:404-415 | the grade is A exactly at 90 and above, and F exactly below 60 |
| CandidateScorer.GradeMonotone | services/candidate_scorer.py:404-415 | a higher score never gets a worse grade |
| CandidateScorer.AppendBand | services/candidate_scorer.py:371-392 | each `if`/`elif`/`else` block appends exactly one line: the strong one at 80 or more, the fair one at 60 or more, else the weak one |
| CandidateScorer.GenerateFeedback | services/candidate_scorer.py:367-402 | the appending loop yields the feedback list of the specification function |
| CandidateScorer.FeedbackShape | services/candidate_scorer.py:367-402 | feedback is the skills, experience and education lines, then the certifications line when there are certifications, then the diverse-skills line when there are more than five skills |
| CandidateScorer.FuseSkillsNoDuplicates | services/candidate_scorer.py:39-45 | the fused skill list has no duplicates, even when the inputs differ only in case |
| CandidateScorer.FuseSkillsMembership | services/candidate_scorer.py:39-45 | a fused skill is exactly the title-cased lower-case form of a skill from either list |
| CandidateScorer.FuseKeepsGivenFields | services/candidate_scorer.py:36-54 | fusion keeps truthy experience years and non-empty education, changes no other field, and changes nothing without an analysis |
| CandidateScorer.MissingPenalty | services/candidate_scorer.py:95-99 | the missing-skills penalty lies in 0..30 and is 0 exactly when nothing is missing |
| CandidateScorer.Clamp | services/candidate_scorer.py:127-128 | the clamped total lies in 0..100 and equals the input when the input already does |
| CandidateScorer.ScoreOf | services/candidate_scorer.py:89-144 | the total lies in 0..100 whatever the penalties and adjustment, and the grade is that of the clamped total |
| CandidateScorer.AccumulateTotal | services/candidate_scorer.py:89-128 | the `-=`/`+=` sequence yields the clamped adjusted total of the specification |
| CandidateScorer.AssembleFeedback | services/candidate_scorer.py:130-138 | the insert/append steps yield the final feedback of the specification |
| CandidateScorer.ScoreCandidate | services/candidate_scorer.py:20-167 | the scoring method returns the specified result and the fused candidate record |
| CandidateScorer.DimensionsInRange | services/candidate_scorer.py:56-87 | every dimension lies in 0..100 when the AI's own scores do |
| CandidateScorer.SkillsBlend | services/candidate_scorer.py:58-66 | the skills dimension is 0.8·AI + 0.2·keyword score when the AI gives a score, else the keyword score |
| CandidateScorer.NoAIMeansPlainTotal | services/candidate_scorer.py:70-117 | without an analysis, relevance, depth and culture fit are 50 and no penalty or bonus fires |
| CandidateScorer.PenaltiesAndBonus | services/candidate_scorer.py:95-125 | the missing-skills penalty is min(8n, 30), a probability above 85 costs 10, and the adjustment is added as given; the total is written out in full for relevance below 40 (minus 15), for relevance and technical depth both above 90 (plus 5), and for neither |
| CandidateScorer.FinalFeedbackShape | services/candidate_scorer.py:130-138 | a failed parse gives only the manual-review line; otherwise the generated feedback sits between at most one line before it (the missing-skills line, when skills are missing) and at most one after it (the suspicion line, above 75) |
| CandidateScorer.FeedbackOrder | services/candidate_scorer.py:130-138 | a failed parse gives only the manual-review line; otherwise the missing-skills line comes first, the suspicion line last, and the generated feedback between |
| Ranking.Insert | services/candidate_scorer.py:419 | insertion adds exactly one element (same multiset plus it) |
| Ranking.SortByScore | services/candidate_scorer.py:419 | sorting keeps the length |
| Ranking.SortByScoreSorted | services/candidate_scorer.py:419 | the sorted list is non-increasing in total score |
| Ranking.SortByScorePermutes | services/candidate_scorer.py:419 | the sorted list is a permutation of the input |
| Ranking.SortByScoreStable | services/candidate_scorer.py:419 | candidates with equal scores keep their input order |
| Ranking.Ranked | services/candidate_scorer.py:419-425 | the i-th ranked result is the i-th sorted result with rank i+1 |
| Ranking.RankedSorted | services/candidate_scorer.py:419-425 | the ranked list is still sorted by score |
| Ranking.RankCandidates | services/candidate_scorer.py:417-425 | the rank-numbering loop yields the ranked list |
| ResumeParser.FirstNameLine | services/resume_parser.py:44-49 | a name found is a stripped line that is non-empty, shorter than 50 and free of '@', and no earlier line qualifies; none found means no line qualifies |
| ResumeParser.ExtractName | services/resume_parser.py:40-49 | the scan of the first five lines yields the first qualifying stripped line |
| ResumeParser.ExtractEmail | services/resume_parser.py:51-55 | the result is the leftmost email match, and none means no position matches |
| ResumeParser.ExtractedEmailShape | services/resume_parser.py:53 | an extracted email has a single '@' with a non-empty local part and a dot in the domain |
| ResumeParser.ExtractedEmailOccurs | services/resume_parser.py:54-55 | an extracted email occurs in the text |
| ResumeParser.ExtractPhone | services/resume_parser.py:57-71 | the pattern loop yields the first match of the first pattern that matches |
| ResumeParser.PhoneOfSkipsTenDigits | services/resume_parser.py:59-71 | the phone is the grouped pattern's match, or else the international pattern's: the ten-digit pattern never decides |
| ResumeParser.PhoneOfShape | services/resume_parser.py:65-70 | a phone found is ten digits (the groups joined) or '+' followed by at least nine more characters |
| ResumeParser.ExtractSkills | services/resume_parser.py:73-101 | the appending loop yields the specified skill list |
| ResumeParser.SkillsOfMeaning | services/resume_parser.py:94-101 | no skill appears twice, and a skill is listed exactly when it is the title case of a vocabulary entry occurring in the lower-cased text |
| ResumeParser.ExtractEducation | services/resume_parser.py:103-118 | the appending loop yields the specified degree records |
| ResumeParser.DegreesDistinctLowerCase | services/resume_parser.py:109 | the degree keywords are distinct and already lower case |
| ResumeParser.EducationOfMeaning | services/resume_parser.py:111-118 | one record per keyword found, no duplicates, each the upper-cased keyword with field "Not specified" |
| ResumeParser.EducationInOrder | services/resume_parser.py:103-118 | the records keep the order of the degree keyword table: of two records, the earlier comes from an earlier keyword |
| ResumeParser.ExtractCertifications | services/resume_parser.py:139-155 | the appending loop yields the specified certification list |
| ResumeParser.ExtractLanguages | services/resume_parser.py:157-169 | the appending loop yields the specified language list |
| ResumeParser.TitledHitsMeaning | services/resume_parser.py:151-167 | a title-cased scan lists exactly the title-cased entries that occur in the text |
| ResumeParser.TitledHitsInOrder | services/resume_parser.py:151-167 | of two results of a title-cased scan, the earlier comes from an earlier vocabulary entry |
| ResumeParser.ExtractExperienceYears | services/resume_parser.py:120-137 | the pattern loop yields the first match of the first pattern that matches |
| ResumeParser.FoundYearsAreNumber | services/resume_parser.py:123-133 | the years found are the value of a digit run of the text |
| ResumeParser.YearsOfMeaning | services/resume_parser.py:129-137 | no years exactly when no pattern matches; years found are the value of a digit run in the lower-cased text |
| ResumeParser.ExtractSummary | services/resume_parser.py:171-189 | the method yields the specified summary of the stripped, split text |
| ResumeParser.SummaryScan | services/resume_parser.py:178-189 | the header scan, then the long-line scan, then the fallback text, as specified |
| ResumeParser.SummaryFromKeepsOut | services/resume_parser.py:178-189 | a summary built from lines without newlines has none |
| ResumeParser.SummaryIsOneLine | services/resume_parser.py:173-187 | the summary never contains a newline |
| ResumeParser.ParseResume | services/resume_parser.py:12-38 | empty text gives only the error; other text gives the full record of the extractors' results with the text as raw text |
| Patterns.FirstMatch | services/resume_parser.py:66-70 | `findall(...)[0]`: the match at the leftmost matching position, and none means no position matches |
| Patterns.FirstPattern | services/resume_parser.py:65-71 | the first match of the first pattern in the list that matches anywhere |
| Patterns.YearsOfExperienceAt | services/resume_parser.py:124 | a years-of-experience match captures a digit run |
| Patterns.ExperienceColonYearsAt | services/resume_parser.py:125 | an "experience: N years" match captures a digit run |
| Patterns.YearsInAt | services/resume_parser.py:126 | an "N years in" match captures a digit run |
| Patterns.ResumeYearsPatternAt | services/resume_parser.py:123-127 | each of the parser's three years patterns captures a digit run |
| Patterns.PhraseNumberYearsAt | services/candidate_scorer.py:353-354 | a "minimum of N years" or "at least N years" match captures a digit run |
| Patterns.RequiredYearsPatternAt | services/candidate_scorer.py:351-355 | each of the scorer's three required-years patterns captures a digit run |
| Patterns.LongWordsFrom | services/candidate_scorer.py:316-317 | every word found has four or more word characters |
| Patterns.EmailAt | services/resume_parser.py:53 | an email match is a slice of the text starting at the position tried |
| Patterns.EmailShape | services/resume_parser.py:53 | an email match has one '@', a non-empty local part and a dot after the '@' |
| Patterns.PhoneGroupsAt | services/resume_parser.py:60 | the three groups joined are ten digits |
| Patterns.GroupedPhoneAt | services/resume_parser.py:60 | a grouped-pattern match is ten digits |
| Patterns.IntlPhoneAt | services/resume_parser.py:62 | an international match starts with '+' and has at least ten characters |
| Patterns.PhonePatternAt | services/resume_parser.py:59-63 | every phone pattern match is ten digits or starts with '+' |
| Patterns.TenDigitsImpliesGrouped | services/resume_parser.py:60-61 | wherever the ten-digit pattern matches, the grouped pattern matches too |
| Patterns.TenDigitsNeverReached | services/resume_parser.py:59-67 | when the grouped pattern finds nothing, neither does the ten-digit pattern |
| CacheService.Lookup | services/cache_service.py:80-83 | a value is returned exactly for a stored key that is live (expiry 0 or later than now), and it is the stored value |
| CacheService.ExpiryFor | services/cache_service.py:104-107 | a falsy ttl stores expiry 0; a truthy ttl stores now + ttl |
| CacheService.Matching | services/cache_service.py:135 | the keys selected are exactly the stored keys starting with the prefix |
| CacheService.PatternPrefix | services/cache_service.py:135 | the prefix of a pattern contains no '*' |
| CacheService.SetThenGetWithTtl | services/cache_service.py:80-105 | after a set with a positive ttl, a get before set-time + ttl returns the value |
| CacheService.SetWithoutTtlNeverExpires | services/cache_service.py:102-107 | after a set with a falsy ttl the expiry is 0 and a get at any time returns the value |
| CacheService.SetLeavesOtherKeys | services/cache_service.py:102-107 | a set leaves the lookup of every other key unchanged |
| CacheService.DeletePatternExact | services/cache_service.py:135-138 | a pattern delete removes exactly the matching keys from both maps and keeps every other entry |
| CacheService.Present | services/cache_service.py:68 | every key part is a present argument, every present argument is a key part, and there are no more parts than arguments |
| CacheService.GenerateKeySplits | services/cache_service.py:66-69 | a generated key splits on ':' back into the prefix and the present arguments |
| CacheService.TtlOf | services/cache_service.py:161-207 | every convenience setter stores with a positive TTL |
| CacheService.KeyStartsWithTag | services/cache_service.py:161-207 | every convenience key starts with the four-character tag of its entry kind |
| CacheService.KeyOfInjective | services/cache_service.py:161-207 | different convenience entries never share a key |
| CacheService.CandidateKeys | services/cache_service.py:149-155 | the stats and analytics keys are always invalidated, and the job keys only with a truthy job id |
| CacheService.MemoryCache.constructor | services/cache_service.py:37-40 | the cache starts with two empty maps |
| CacheService.MemoryCache.Get | services/cache_service.py:71-90 | get returns the live value; an expired key is removed from both maps and nothing else changes |
| CacheService.MemoryCache.Set | services/cache_service.py:92-111 | set stores the value and its expiry and returns True |
| CacheService.MemoryCache.Delete | services/cache_service.py:113-124 | delete removes exactly the key from both maps (a no-op when absent) and returns True |
| CacheService.MemoryCache.DeletePattern | services/cache_service.py:126-142 | the deletion loop removes exactly the keys matching the pattern prefix from both maps |
| CacheService.MemoryCache.InvalidateJobs | services/cache_service.py:144-147 | exactly the job list and dashboard stats keys are removed |
| CacheService.MemoryCache.InvalidateCandidates | services/cache_service.py:149-155 | exactly the candidate-related keys are removed |
| CacheService.MemoryCache.GetEntry | services/cache_service.py:161-203 | a convenience getter is a get of the entry's key: the same result, and the same removal of an expired entry from both maps, otherwise both maps unchanged |
| CacheService.MemoryCache.SetEntry | services/cache_service.py:165-207 | a convenience setter stores under the entry's key with its TTL |
| StorageService.GeneratedIdDecodes | services/storage_service.py:33 | a generated id splits on '_' into "cand", the clock seconds and the list length |
| StorageService.Filled | services/storage_service.py:31-35 | after filling, the record has an id and a timestamp |
| StorageService.FilledKeepsGiven | services/storage_service.py:31-35 | an existing id and timestamp are kept, missing ones are generated, other fields are untouched |
| StorageService.FirstWithId | services/storage_service.py:38-42 | the index found is the first record with the id; none means no record has it |
| StorageService.UpsertReplacesFirst | services/storage_service.py:46-47 | with a record of the same id, the first one is replaced, the length is unchanged and every other record is kept |
| StorageService.UpsertAppends | services/storage_service.py:48-49 | without one, the record is appended and the length grows by one |
| StorageService.UpsertKeepsIdsUnique | services/storage_service.py:37-49 | upserting keeps present ids unique and the record is in the list |
| StorageService.CandidateStore.constructor | services/storage_service.py:10-18 | the store starts with an empty list |
| StorageService.CandidateStore.FindIndex | services/storage_service.py:38-42 | the scan with early exit finds the first record with the id |
| StorageService.CandidateStore.SaveCandidate | services/storage_service.py:28-52 | the returned record is the filled record, and the list becomes the upsert of it |
| StorageService.CandidateStore.Clear | services/storage_service.py:58-59 | the list is empty afterwards |
| AIService.ExtractKeywords | services/ai_service.py:421-435 | there are always between 1 and 10 keywords |
| AIService.ExtractKeywordsMeaning | services/ai_service.py:432-435 | no hits give `['relevant skills']`; otherwise the keywords are the first min(hits, 10) hits, each a vocabulary entry occurring in the lower-cased text |
| AIService.ExtractKeywordsInListOrder | services/ai_service.py:433-435 | keywords keep vocabulary order |
| AIService.BaseTemplates | services/ai_service.py:378-409 | there are always fifteen templates |
| AIService.PyPrefix | services/ai_service.py:412 | Python slicing `[:n]`: a prefix of length min(n, len), or len+n for negative n |
| AIService.FallbackQuestions | services/ai_service.py:373-418 | min(n, 15) questions with ids 1..n, each with the first three keywords as expected skills |
| AIService.Instantiated | services/ai_service.py:411-416 | one question per template, with consecutive ids and the given skills |
| AIService.InstantiateTemplates | services/ai_service.py:411-418 | the copying loop yields the instantiated templates |
| AIService.GenerateQuestionsFallback | services/ai_service.py:373-418 | the generator yields the specified fallback questions |
| AIService.TripledCategory | services/ai_service.py:402-407 | a list repeated three times keeps one category |
| AIService.FallbackCategories | services/ai_service.py:402-409 | a named type gives only that category; any other type gives five technical, five behavioral, then five situational |
| AIService.DropPrefix | services/ai_service.py:304-307 | a leading fence is removed exactly when present |
| AIService.DropSuffix | services/ai_service.py:308-309 | a trailing fence is removed exactly when present |
| AIService.BracketSpanIsSubstring | services/ai_service.py:313-316 | the kept span is a substring of the content |
| AIService.BracketSpanShape | services/ai_service.py:313-316 | with a '[' before the last ']', the span is exactly the slice from the first '[' through the last ']', so it starts with '[' and ends with ']' |
| AIService.CleanResponse | services/ai_service.py:304-316 | the step-by-step trimming yields the specified cleaned content |
| AIService.SpanOfBrackets | services/ai_service.py:313-316 | the find/rfind step yields the bracket span |
| AIService.CleanFencedArray | services/ai_service.py:304-316 | a bare array, fenced or not, cleans to itself |
| AIService.Normalized | services/ai_service.py:321-330 | defaulting keeps the number of questions |
| AIService.NormalizeQuestions | services/ai_service.py:321-332 | the defaulting loop yields the normalized list |
| AIService.NormalizedMeaning | services/ai_service.py:321-330 | a question with text gets the missing defaults and id index+1, keeps the given fields; one without text is untouched |
| AIService.NormalizedIdempotent | services/ai_service.py:321-330 | defaulting twice is defaulting once |
| AIService.FenceContentUnwraps | services/ai_service.py:147-152 | a json fence around backtick-free text decodes its stripped body |
| AIService.JsonFenceIsFence | services/ai_service.py:147-150 | a json fence is always also a plain fence |
| AIService.NoFenceIsWholeText | services/ai_service.py:147-152 | without a fence the whole stripped text is decoded |
| AIService.TypeInstruction | services/ai_service.py:171-181 | the mixed instruction is chosen exactly for the types with no single fallback category |
| App.AllowedFile | app.py:28-29 | a name without a dot is never allowed |
| App.AllowedFileMeaning | app.py:19-29 | with its last dot at i, a file is allowed exactly when the lower-cased suffix after i is pdf, docx or txt |
| App.AllowedFileExamples | app.py:28-29 | documentation only, two concrete inputs (`AllowedFileMeaning` states the property): "resume.PDF" is allowed; "notes.txt.exe" is not |
| App.CsvRows | app.py:263-268 | one row per question |
| App.ExportCsv | app.py:250-268 | the empty list is rejected with "No questions provided"; otherwise the `+=` loop yields the header and one row per question, each ending in a newline |
| App.CsvRowIsOneLine | app.py:264-268 | a row of single-line fields has no newline |
| App.CsvLines | app.py:262-268 | with single-line fields, the CSV splits into the header, the rows in order, and the empty text after the last newline |
| App.CsvQuestionFieldDecodes | app.py:264 | the doubled-quote field has an even number of quotes and undoubles back to the question |
| App.DownloadName | app.py:274 | the download name has no space when the extension has none |
| App.DownloadNameKeepsTitle | app.py:311 | only the title's spaces change, into '-', and the length is kept |
| App.Slots | app.py:137-146 | there are always exactly ten question fields |
| App.ZapierPayloadOf | app.py:97-108 | no questions is rejected before a missing webhook URL; otherwise the payload is built |
| App.PayloadSlots | app.py:111-206 | the total is the list length, the first ten slots hold the texts, later slots stay empty, and the entries are numbered from 1 |
| App.SheetsTextLines | app.py:202-206 | the sheets text splits back into one numbered line per question |
| App.ShapeZapierPayload | app.py:96-206 | the checks and the filling pass yield the specified payload or error |
| App.ShapeQuestions | app.py:149-206 | the `enumerate` loop yields the numbered entries and text lines of the chosen form, and the ten question slots |
| EmailService.SendEmail | services/email_service.py:17-40 | a send succeeds exactly when the service is enabled and the server accepts |
| EmailService.Sent | services/email_service.py:15-20 | nothing is sent for a guarded-out message or a disabled service |
| EmailService.ConfirmationMessage | services/email_service.py:42-59 | a confirmation exists exactly for a truthy recipient and goes to that recipient |
| EmailService.RejectionMessage | services/email_service.py:61-80 | a rejection exists exactly for a truthy recipient and goes to that recipient |
| EmailService.InvitationMessage | services/email_service.py:82-147 | an invitation exists exactly for a truthy recipient and uses the defaults for title, duration, calendar and meeting link |
| EmailService.FirstTruthy | services/email_service.py:155-157 | the first truthy key wins, then the second, then the default |
| EmailService.ContactFieldsNonEmpty | services/email_service.py:155-157 | the shown name, email and phone are never empty |
| EmailService.ResumeLinkPrefersResumeUrl | services/email_service.py:160-165 | a truthy full `resume_url` is the link, whatever `file_url` is |
| EmailService.ResumeLinkFallsBackToFileUrl | services/email_service.py:163-165 | without a truthy `resume_url`, a truthy `file_url` is used |
| EmailService.ResumeLinkKeepsFullUrl | services/email_service.py:167-169 | a link starting with "http" is kept unchanged |
| EmailService.ResumeLinkJoinsOneSlash | services/email_service.py:169-173 | a relative link with a base becomes the base with only its trailing slashes dropped, one '/', and the link with only its leading slashes dropped |
| EmailService.SubjectFor | services/email_service.py:176 | the alert subject is chosen exactly for a score above 70, a missing score counting as 0 |
| EmailService.SubjectText | services/email_service.py:176-183 | the alert subject starts with the mark, "HIGH SCORE ALERT: " and the name; the other starts with "New Candidate: " and the name |
| EmailService.ListItemsAppend | services/email_service.py:185-188 | the items of a concatenation are the items of each part in order |
| EmailService.ListItemsShowEverySkill | services/email_service.py:185-188 | every skill appears as its own list item |
| EmailService.SkillsHtml | services/email_service.py:185-188 | the loop yields "<ul>", one item per skill, "</ul>" |
| EmailService.AdminMessage | services/email_service.py:149-206 | a notification exists exactly when an admin address is set; it carries the chosen subject, the resolved link and the skills list |
| EmailService.BuildAdminMessage | services/email_service.py:149-206 | the step-by-step link resolution and the skills loop yield the specified notification |
| EmailService.NothingSentWhenGuarded | services/email_service.py:150-151 | no notification is sent by a disabled service or without an admin address |

## Left out

Not modelled:

- **Network and AI calls.** The calls to Perplexity, OpenAI and Claude are not modelled. Neither are the automatic AI analysis inside `score_candidate` and the API keys from the environment. The analysis is an input; an absent or empty one is `None`.
- **JSON.** JSON encoding and decoding are left out. Decoded values (questions, analyses, candidate records) are inputs. JSON `null` is treated as a missing key.
- **Number conversion.** Python `float()` of AI values, `round(x, 2)` and `str()` of a float are left out. Scores are exact reals, and the score text in an email subject is a parameter.
- **Other outside effects.** Redis, the `cached` decorator, file I/O (the JSON candidate file and document text extraction), Flask routing and responses, the webhook POST and its response handling, SMTP, and console printing are left out.
- **Dictionary aliasing.** `score_candidate` updates the caller's `candidate_info` in place. `ScoreCandidate` instead returns the fused record. `rank_candidates` sets `rank` on the caller's dicts; `RankCandidates` works on values. `save_candidate` fills `id` and `timestamp` into the caller's `candidate_data` (services/storage_service.py:31-34); `SaveCandidate` returns the filled record instead. `parse_ai_response` fills the defaults into each decoded question dict in place (services/ai_service.py:321-330); `NormalizeQuestions` returns new records.
- **Text.** Case mapping, `\w`, `\d` and `\b` are ASCII only. Whitespace is Python's `isspace` set.
- **Set order.** `list(set(...))` order in skill extraction and fusion is unspecified in Python. The model fixes one order, and the lemmas state only membership and absence of duplicates.
- **Email bodies.** The HTML text around the interpolated values in email bodies is left out; each `Body` holds only the values filled in.
- **Plain-text export.** The timestamped header and body of the plain-text export are left out; only its file name is modelled.
- **Unused scoring code.** `_score_certifications` is modelled although `score_candidate` never calls it.

Weaker contracts:

- CandidateScorer.ScoreKeywords: the set of words comes from a scanner of maximal word runs of length four or more. That matches `\b\w{4,}\b` for ASCII text only.
- Patterns.PhonePatternAt: `\s` and the separators are ASCII and Python whitespace. Python's Unicode digits are not accepted.
- App.AllowedFile: the contract states only the no-dot case; `App.AllowedFileMeaning` states the other direction.
- Ranking.RankCandidates: it returns new values and does not alias the input records.
- EmailService.InvitationMessage: `int()` of the duration is not modelled; the duration is taken as an integer already.
